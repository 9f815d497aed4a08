/** Service ports of pkg/builders/k8s/helpers.go: unique names and the node-port range. */
module ServicePorts {
  import opened Text

  datatype Target = Number(n: int) | Named(name: string)

  datatype PortSpec = PortSpec(name: string, containerPort: int, protocol: string,
                               targetPort: Option<Target>, nodePort: int)

  datatype ServicePort = ServicePort(name: string, port: int, targetPort: Target,
                                     protocol: string, nodePort: int)

  function ProtocolOf(ps: PortSpec): string {
    if ps.protocol == "" then "TCP" else ps.protocol
  }

  /** The configured name, or one derived from port and protocol. */
  function BaseName(ps: PortSpec): string {
    if ps.name != "" then ps.name
    else "port-" + Decimal(ps.containerPort) + "-" + ToLower(ProtocolOf(ps))
  }

  /** The k-th name tried for a port: the base itself, then base-1, base-2, ... */
  function Candidate(base: string, k: nat): string {
    if k == 0 then base else base + "-" + Decimal(k)
  }

  /** k is the least suffix whose candidate is not used yet. */
  ghost predicate LeastFree(base: string, used: set<string>, k: nat) {
    && Candidate(base, k) !in used
    && forall j: nat :: j < k ==> Candidate(base, j) in used
  }

  lemma CandidateInjective(base: string, i: nat, j: nat)
    requires Candidate(base, i) == Candidate(base, j)
    ensures i == j
  {
    if i > 0 && j > 0 {
      assert Natural(i) == Candidate(base, i)[|base| + 1..];
      assert Natural(j) == Candidate(base, j)[|base| + 1..];
      NaturalInjective(i, j);
    }
  }

  /** Distinct probes: k failed probes need k used names (pigeonhole). */
  lemma {:induction false} FailedProbesBounded(base: string, used: set<string>, k: nat)
    requires forall j: nat :: j < k ==> Candidate(base, j) in used
    ensures k <= |used|
  {
    if k > 0 {
      var last := Candidate(base, k - 1);
      forall j: nat | j < k - 1 ensures Candidate(base, j) in used - {last} {
        if Candidate(base, j) == last { CandidateInjective(base, j, k - 1); }
      }
      FailedProbesBounded(base, used - {last}, k - 1);
    }
  }

  /** The inner loop: it tests at most |used| + 1 names and stops at the least free one. */
  method UniqueName(base: string, used: set<string>) returns (name: string, ghost k: nat)
    ensures LeastFree(base, used, k) && name == Candidate(base, k)
    ensures k <= |used|
  {
    name := base;
    var counter := 1;
    k := 0;
    while name in used
      invariant counter == k + 1 && name == Candidate(base, k)
      invariant forall j: nat :: j < k ==> Candidate(base, j) in used
      decreases |used| - k
    {
      FailedProbesBounded(base, used, k + 1);
      name := base + "-" + Decimal(counter);
      counter := counter + 1;
      k := k + 1;
    }
    FailedProbesBounded(base, used, k);
  }

  function NamesOf(ports: seq<ServicePort>): set<string> {
    set p | p in ports :: p.name
  }

  ghost predicate DistinctNames(ports: seq<ServicePort>) {
    forall i, j :: 0 <= i < j < |ports| ==> ports[i].name != ports[j].name
  }

  /** Everything but the name and the node port is carried over from the configuration. */
  predicate Carries(p: ServicePort, ps: PortSpec) {
    && p.port == ps.containerPort
    && p.targetPort == (if ps.targetPort.Some? then ps.targetPort.value else Number(ps.containerPort))
    && p.protocol == ProtocolOf(ps)
    && p.nodePort == (if 30000 <= ps.nodePort <= 32767 then ps.nodePort else 0)
  }

  /** The i-th port got the least suffix free among the ports before it. */
  ghost predicate NamedMinimally(ports: seq<ServicePort>, i: int, ps: PortSpec)
    requires 0 <= i < |ports|
  {
    exists k: nat :: LeastFree(BaseName(ps), NamesOf(ports[..i]), k)
                     && ports[i].name == Candidate(BaseName(ps), k)
  }

  ghost predicate BuiltSoFar(ports: seq<ServicePort>, specs: seq<PortSpec>) {
    && |ports| <= |specs|
    && forall i :: 0 <= i < |ports| ==> Carries(ports[i], specs[i]) && NamedMinimally(ports, i, specs[i])
  }

  lemma NamesOfAppend(ports: seq<ServicePort>, sp: ServicePort)
    ensures NamesOf(ports + [sp]) == NamesOf(ports) + {sp.name}
  {
    var longer := ports + [sp];
    assert longer[|ports|] == sp;
    assert forall p :: p in longer <==> p in ports || p == sp;
  }

  /** Whether a port is minimally named depends only on the ports before it. */
  lemma EarlierNamesStand(ports: seq<ServicePort>, sp: ServicePort, j: nat, ps: PortSpec)
    requires j < |ports| && NamedMinimally(ports, j, ps)
    ensures NamedMinimally(ports + [sp], j, ps)
  {
    assert (ports + [sp])[..j] == ports[..j];
  }

  /** Appending a port whose name is the least free one keeps the names distinct and minimal. */
  lemma Append(ports: seq<ServicePort>, specs: seq<PortSpec>, sp: ServicePort, k: nat)
    requires |ports| < |specs| && DistinctNames(ports) && BuiltSoFar(ports, specs)
    requires LeastFree(BaseName(specs[|ports|]), NamesOf(ports), k)
    requires sp.name == Candidate(BaseName(specs[|ports|]), k) && Carries(sp, specs[|ports|])
    ensures DistinctNames(ports + [sp]) && BuiltSoFar(ports + [sp], specs)
  {
    var longer := ports + [sp];
    forall j | 0 <= j < |longer|
      ensures Carries(longer[j], specs[j]) && NamedMinimally(longer, j, specs[j])
      ensures j < |ports| ==> longer[j].name != sp.name
    {
      if j < |ports| {
        EarlierNamesStand(ports, sp, j, specs[j]);
        assert ports[j] in ports;
      } else {
        assert longer[..j] == ports;
      }
    }
  }

  /** What BuildServicePorts promises of its result. */
  ghost predicate Built(ports: seq<ServicePort>, specs: seq<PortSpec>) {
    |ports| == |specs| && BuiltSoFar(ports, specs)
  }

  method BuildServicePorts(specs: seq<PortSpec>) returns (ports: seq<ServicePort>)
    ensures Built(ports, specs) && DistinctNames(ports)
  {
    ports := [];
    var portNames: set<string> := {};
    for i := 0 to |specs|
      invariant |ports| == i
      invariant portNames == NamesOf(ports)
      invariant DistinctNames(ports) && BuiltSoFar(ports, specs)
    {
      var ps := specs[i];
      var target := if ps.targetPort.Some? then ps.targetPort.value else Number(ps.containerPort);
      var name, k := UniqueName(BaseName(ps), portNames);
      portNames := portNames + {name};
      var sp := ServicePort(name, ps.containerPort, target, ProtocolOf(ps), 0);
      if ps.nodePort != 0 {
        if ps.nodePort < 30000 || ps.nodePort > 32767 {
        } else {
          sp := sp.(nodePort := ps.nodePort);
        }
      }
      Append(ports, specs, sp, k);
      NamesOfAppend(ports, sp);
      ports := ports + [sp];
    }
  }

  /** A port is determined by its configuration and the ports before it. */
  lemma NextPortUnique(a: seq<ServicePort>, b: seq<ServicePort>, i: nat, ps: PortSpec)
    requires i < |a| && i < |b| && a[..i] == b[..i]
    requires Carries(a[i], ps) && Carries(b[i], ps)
    requires NamedMinimally(a, i, ps) && NamedMinimally(b, i, ps)
    ensures a[..i + 1] == b[..i + 1]
  {
    var base, used := BaseName(ps), NamesOf(a[..i]);
    var j: nat :| LeastFree(base, used, j) && a[i].name == Candidate(base, j);
    var k: nat :| LeastFree(base, used, k) && b[i].name == Candidate(base, k);
    assert j == k;
    assert a[..i + 1] == a[..i] + [a[i]] && b[..i + 1] == b[..i] + [b[i]];
  }

  lemma {:induction false} PrefixesAgree(specs: seq<PortSpec>, a: seq<ServicePort>, b: seq<ServicePort>, n: nat)
    requires Built(a, specs) && Built(b, specs) && n <= |specs|
    ensures a[..n] == b[..n]
  {
    hide NamedMinimally, Carries;
    if n > 0 {
      PrefixesAgree(specs, a, b, n - 1);
      NextPortUnique(a, b, n - 1, specs[n - 1]);
    }
  }

  /** The promises leave one result: length, order, names and node ports are all determined
      by the configuration. */
  lemma ServicePortsUnique(specs: seq<PortSpec>, a: seq<ServicePort>, b: seq<ServicePort>)
    requires Built(a, specs) && Built(b, specs)
    ensures a == b
  {
    PrefixesAgree(specs, a, b, |specs|);
    assert a[..|specs|] == a && b[..|specs|] == b;
  }

  /** A port without a name or a protocol is a TCP port named after its number. */
  lemma UnnamedPort(ports: seq<ServicePort>, specs: seq<PortSpec>)
    requires Built(ports, specs) && |specs| > 0 && specs[0].name == ""
    ensures specs[0].protocol == "" ==>
              ports[0].protocol == "TCP" && ports[0].name == "port-" + Decimal(specs[0].containerPort) + "-tcp"
    ensures specs[0].protocol != "" ==>
              && ports[0].protocol == specs[0].protocol
              && ports[0].name == "port-" + Decimal(specs[0].containerPort) + "-" + ToLower(specs[0].protocol)
  {
    assert NamedMinimally(ports, 0, specs[0]);
    assert ports[..0] == [];
    assert LeastFree(BaseName(specs[0]), NamesOf(ports[..0]), 0);
    assert ToLower("TCP") == "tcp";
  }

  /** A named port keeps its name, or gets the first number that makes it differ from the names of
      the ports before it. */
  lemma NumberedName(ports: seq<ServicePort>, specs: seq<PortSpec>, i: nat) returns (k: nat)
    requires Built(ports, specs) && i < |specs| && specs[i].name != ""
    ensures ports[i].name == if k == 0 then specs[i].name else specs[i].name + "-" + Decimal(k)
    ensures forall j :: 0 <= j < i ==> ports[j].name != ports[i].name
    ensures k > 0 ==> exists j :: 0 <= j < i && ports[j].name == specs[i].name
    ensures forall l :: 0 < l < k ==>
              exists j :: 0 <= j < i && ports[j].name == specs[i].name + "-" + Decimal(l)
  {
    var base, used := specs[i].name, NamesOf(ports[..i]);
    assert NamedMinimally(ports, i, specs[i]);
    k :| LeastFree(base, used, k) && ports[i].name == Candidate(base, k);
    forall j | 0 <= j < i ensures ports[j].name in used {
      assert ports[..i][j] in ports[..i];
    }
    if k > 0 {
      assert Candidate(base, 0) in used;
    }
    forall l | 0 < l < k ensures base + "-" + Decimal(l) in used {
      assert Candidate(base, l) in used;
    }
  }

  /** A generated name gets out of the way of a literal one only by order: once "http-1" is
      taken for the second "http", a port literally called "http-1" becomes "http-1-1". */
  lemma LaterLiteralIsRenamed(ports: seq<ServicePort>, specs: seq<PortSpec>)
    requires |specs| == 3
    requires specs[0].name == specs[1].name == "http" && specs[2].name == "http-1"
    requires Built(ports, specs)
    ensures ports[0].name == "http" && ports[1].name == "http-1" && ports[2].name == "http-1-1"
  {
    assert Natural(1) == "1";
    assert Candidate("http", 1) == "http-1";
    assert Candidate("http-1", 1) == "http-1-1";
    assert NamedMinimally(ports, 0, specs[0]);
    assert ports[..0] == [];
    assert LeastFree("http", NamesOf(ports[..0]), 0);
    assert NamedMinimally(ports, 1, specs[1]);
    assert ports[..1] == [ports[0]];
    assert LeastFree("http", NamesOf(ports[..1]), 1);
    assert NamedMinimally(ports, 2, specs[2]);
    assert ports[..2] == [ports[0], ports[1]];
    assert LeastFree("http-1", NamesOf(ports[..2]), 1);
  }
}
