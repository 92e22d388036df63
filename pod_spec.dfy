/** The part of a pod specification the factory reads: containers in
    declaration order, each with its declared ports in order, and the two
    walks over them, `getPorts` and `getProtocols`. */
module PodSpec {
  import opened Decimal

  /** Go's `int32`, the type of `ContainerPort`. */
  type Int32 = x: int | -0x8000_0000 <= x < 0x8000_0000

  /** A `corev1.Protocol` is a string ("TCP", "UDP", ...). */
  type Protocol = string

  datatype ContainerPort = ContainerPort(containerPort: Int32, protocol: Protocol)

  datatype Container = Container(name: string, ports: seq<ContainerPort>)

  /** The internal (canonical) pod specification. */
  datatype InternalPodSpec = InternalPodSpec(containers: seq<Container>)

  /** Every declared port, ordered by container and then by position within
      the container. */
  function AllPorts(cs: seq<Container>): (ps: seq<ContainerPort>)
  {
    if cs == [] then [] else AllPorts(cs[..|cs| - 1]) + cs[|cs| - 1].ports
  }

  /** The number of ports the containers declare, counted one container at
      a time. */
  function PortCount(cs: seq<Container>): nat {
    if cs == [] then 0 else |cs[0].ports| + PortCount(cs[1..])
  }

  /** The decimal string of each port number, in order. */
  function PortStrings(ps: seq<ContainerPort>): (r: seq<string>)
    ensures |r| == |ps|
  {
    if ps == [] then [] else PortStrings(ps[..|ps| - 1]) + [Itoa(ps[|ps| - 1].containerPort)]
  }

  /** The protocol table filled port by port: each port writes its protocol
      under its decimal number, overwriting an earlier write. */
  function ProtocolsOf(ps: seq<ContainerPort>): (m: map<string, Protocol>)
  {
    if ps == [] then map[]
    else ProtocolsOf(ps[..|ps| - 1])[Itoa(ps[|ps| - 1].containerPort) := ps[|ps| - 1].protocol]
  }

  /** `getPorts`: one decimal string per declared port, in container-then-port
      order. */
  method GetPorts(spec: InternalPodSpec) returns (result: seq<string>)
    ensures result == PortStrings(AllPorts(spec.containers))
  {
    var cs := spec.containers;
    result := [];
    ghost var done: seq<ContainerPort> := [];
    var i := 0;
    while i < |cs|
      invariant 0 <= i <= |cs|
      invariant done == AllPorts(cs[..i])
      invariant result == PortStrings(done)
    {
      var ports := cs[i].ports;
      var j := 0;
      AllPortsPrefix(cs, i);
      while j < |ports|
        invariant 0 <= j <= |ports|
        invariant done == AllPorts(cs[..i]) + ports[..j]
        invariant result == PortStrings(done)
      {
        PortStringsSnoc(done, ports[j]);
        SnocPrefix(AllPorts(cs[..i]), ports, j);
        result := result + [Itoa(ports[j].containerPort)];
        done := done + [ports[j]];
        j := j + 1;
      }
      i := i + 1;
    }
    assert cs[..i] == cs;
  }

  /** `getProtocols`: a table from decimal port number to protocol, filled
      in container-then-port order, so the last declaration of a number wins. */
  method GetProtocols(spec: InternalPodSpec) returns (result: map<string, Protocol>)
    ensures result == ProtocolsOf(AllPorts(spec.containers))
  {
    var cs := spec.containers;
    result := map[];
    ghost var done: seq<ContainerPort> := [];
    var i := 0;
    while i < |cs|
      invariant 0 <= i <= |cs|
      invariant done == AllPorts(cs[..i])
      invariant result == ProtocolsOf(done)
    {
      var ports := cs[i].ports;
      var j := 0;
      AllPortsPrefix(cs, i);
      while j < |ports|
        invariant 0 <= j <= |ports|
        invariant done == AllPorts(cs[..i]) + ports[..j]
        invariant result == ProtocolsOf(done)
      {
        ProtocolsOfSnoc(done, ports[j]);
        SnocPrefix(AllPorts(cs[..i]), ports, j);
        result := result[Itoa(ports[j].containerPort) := ports[j].protocol];
        done := done + [ports[j]];
        j := j + 1;
      }
      i := i + 1;
    }
    assert cs[..i] == cs;
  }

  /** The loop facts about starting and finishing container `i`. */
  lemma AllPortsPrefix(cs: seq<Container>, i: nat)
    requires i < |cs|
    ensures AllPorts(cs[..i]) + cs[i].ports[..0] == AllPorts(cs[..i])
    ensures AllPorts(cs[..i + 1]) == AllPorts(cs[..i]) + cs[i].ports[..|cs[i].ports|]
  {
    assert cs[..i + 1][..i] == cs[..i];
    assert cs[i].ports[..|cs[i].ports|] == cs[i].ports;
  }

  /** The loop fact about port `j` of the current container. */
  lemma SnocPrefix(done: seq<ContainerPort>, ports: seq<ContainerPort>, j: nat)
    requires j < |ports|
    ensures done + ports[..j] + [ports[j]] == done + ports[..j + 1]
  {
    assert ports[..j + 1] == ports[..j] + [ports[j]];
  }

  lemma PortStringsSnoc(ps: seq<ContainerPort>, p: ContainerPort)
    ensures PortStrings(ps + [p]) == PortStrings(ps) + [Itoa(p.containerPort)]
  {
    var x := ps + [p];
    assert x[..|x| - 1] == ps;
  }

  lemma ProtocolsOfSnoc(ps: seq<ContainerPort>, p: ContainerPort)
    ensures ProtocolsOf(ps + [p]) == ProtocolsOf(ps)[Itoa(p.containerPort) := p.protocol]
  {
    var x := ps + [p];
    assert x[..|x| - 1] == ps;
  }

  /** The ports list has one entry per declared port. */
  lemma {:induction false} AllPortsCount(cs: seq<Container>)
    ensures |AllPorts(cs)| == PortCount(cs)
  {
    if cs != [] {
      AllPortsCount(cs[..|cs| - 1]);
      PortCountSnoc(cs[..|cs| - 1], cs[|cs| - 1]);
      assert cs[..|cs| - 1] + [cs[|cs| - 1]] == cs;
    }
  }

  lemma {:induction false} PortCountSnoc(cs: seq<Container>, c: Container)
    ensures PortCount(cs + [c]) == PortCount(cs) + |c.ports|
  {
    if cs != [] {
      assert (cs + [c])[1..] == cs[1..] + [c];
      PortCountSnoc(cs[1..], c);
    }
  }

  /** Entry `k` of `PortStrings(ps)` is the decimal string of port `k`. */
  lemma {:induction false} PortStringsAt(ps: seq<ContainerPort>)
    ensures forall k :: 0 <= k < |ps| ==> PortStrings(ps)[k] == Itoa(ps[k].containerPort)
  {
    if ps != [] {
      var n := |ps| - 1;
      PortStringsAt(ps[..n]);
      forall k | 0 <= k < n ensures PortStrings(ps)[k] == Itoa(ps[k].containerPort) {
        assert PortStrings(ps)[k] == PortStrings(ps[..n])[k];
        assert ps[..n][k] == ps[k];
      }
    }
  }

  /** What `getPorts` returns: as many strings as there are declared ports,
      the k-th being the decimal number of the k-th port in
      container-then-port order; empty exactly when no port is declared. */
  lemma GetPortsMeaning(spec: InternalPodSpec)
    ensures |PortStrings(AllPorts(spec.containers))| == PortCount(spec.containers)
    ensures PortStrings(AllPorts(spec.containers)) == [] <==> PortCount(spec.containers) == 0
    ensures forall k :: 0 <= k < |AllPorts(spec.containers)| ==>
      PortStrings(AllPorts(spec.containers))[k] == Itoa(AllPorts(spec.containers)[k].containerPort)
  {
    AllPortsCount(spec.containers);
    PortStringsAt(AllPorts(spec.containers));
  }

  /** Port `k` of the flattened list is port `j` of some container `i`, and
      every such port is in the list: the flattening loses and invents
      nothing. */
  lemma {:induction false} AllPortsMembers(cs: seq<Container>, p: ContainerPort)
    ensures p in AllPorts(cs) <==> exists i :: 0 <= i < |cs| && p in cs[i].ports
  {
    if cs != [] {
      var n := |cs| - 1;
      var init := cs[..n];
      AllPortsMembers(init, p);
      assert forall i :: 0 <= i < n ==> init[i] == cs[i];
    }
  }

  /** The protocol table has exactly one key per distinct declared port
      number: the decimal strings of the ports. */
  lemma {:induction false} ProtocolsKeys(ps: seq<ContainerPort>)
    ensures ProtocolsOf(ps).Keys == set p | p in ps :: Itoa(p.containerPort)
  {
    if ps != [] {
      var init := ps[..|ps| - 1];
      ProtocolsKeys(init);
      assert ps == init + [ps[|ps| - 1]];
    }
  }

  /** Last writer wins: the protocol stored under a port's number is that
      of the last declaration of the number. */
  lemma {:induction false} ProtocolsLastWins(ps: seq<ContainerPort>, i: nat)
    requires i < |ps|
    requires forall j :: i < j < |ps| ==> ps[j].containerPort != ps[i].containerPort
    ensures Itoa(ps[i].containerPort) in ProtocolsOf(ps)
    ensures ProtocolsOf(ps)[Itoa(ps[i].containerPort)] == ps[i].protocol
  {
    var n := |ps| - 1;
    var init := ps[..n];
    var key := Itoa(ps[i].containerPort);
    assert ProtocolsOf(ps) == ProtocolsOf(init)[Itoa(ps[n].containerPort) := ps[n].protocol];
    if i < n {
      assert Itoa(ps[n].containerPort) != key by {
        if Itoa(ps[n].containerPort) == key {
          ItoaInjective(ps[n].containerPort, ps[i].containerPort);
        }
      }
      assert init[i] == ps[i];
      ProtocolsLastWins(init, i);
    }
  }

  /** An example: two containers declaring ports 80, 443 and 8080
      give "80", "443", "8080" in that order. */
  lemma PortsExample()
    ensures PortStrings(AllPorts([
      Container("a", [ContainerPort(80, "TCP"), ContainerPort(443, "TCP")]),
      Container("b", [ContainerPort(8080, "TCP")])])) == ["80", "443", "8080"]
  {
    var a := Container("a", [ContainerPort(80, "TCP"), ContainerPort(443, "TCP")]);
    var b := Container("b", [ContainerPort(8080, "TCP")]);
    assert AllPorts([a]) == a.ports by { assert [a][..0] == []; }
    assert AllPorts([a, b]) == AllPorts([a]) + b.ports by { assert [a, b][..1] == [a]; }
    ItoaExamples();
  }

  /** Port 80 declared as TCP and then, in a later container, as UDP ends
      up as UDP. */
  lemma ProtocolsExample()
    ensures ProtocolsOf(AllPorts([
      Container("a", [ContainerPort(80, "TCP")]),
      Container("b", [ContainerPort(80, "UDP")])])) == map["80" := "UDP"]
  {
    var tcp, udp := ContainerPort(80, "TCP"), ContainerPort(80, "UDP");
    var a, b := Container("a", [tcp]), Container("b", [udp]);
    assert AllPorts([a]) == a.ports by { assert [a][..0] == []; }
    assert AllPorts([a, b]) == [tcp, udp] by { assert [a, b][..1] == [a]; }
    ItoaExamples();
    assert [tcp, udp][..1] == [tcp] && [tcp][..0] == [];
    assert ProtocolsOf([tcp]) == map["80" := "TCP"];
    assert ProtocolsOf([tcp, udp]) == map["80" := "TCP"]["80" := "UDP"];
  }
}
