/** What an experiment blueprint compiles to, written out: the instances in order with their names and
    images, their ports, and the pod each of them gets
    (backend/internal/service/env_manager_service.go:869-1155, 1240-1379). */
module RuntimeOutcomes {
  import opened Common
  import opened RuntimeCompiler

  // ---- The instances in order -------------------------------------------------------------------

  /** A key as part of a pod name: trimmed, in lower case, with dashes for underscores and spaces. */
  ghost predicate Slug(key: string, slug: string) {
    var text := Trim(key);
    && |slug| == |text|
    && forall i | 0 <= i < |text| ::
         slug[i] == if text[i] == '_' || text[i] == ' ' then '-'
                    else if 'A' <= text[i] <= 'Z' then text[i] - 'A' + 'a' else text[i]
  }

  ghost predicate Named(envID: string, infix: string, i: Instance) {
    exists slug :: Slug(i.key, slug) && i.podName == envID + infix + slug
  }

  lemma SlugOf(key: string)
    ensures Slug(key, SanitizeRuntimeKey(key))
  {
  }

  ghost predicate IsNode(envID: string, i: Instance, n: Node) {
    && i.key == n.key && i.kind == NodeKind && Named(envID, "-", i)
    && i.studentFacing == n.studentFacing && i.image == None
  }

  /** A companion: a service that its blueprint does not name. */
  ghost predicate IsCompanion(envID: string, i: Instance, key: string, image: Image, ports: seq<int>) {
    && i.key == key && i.kind == ServiceKind && Named(envID, "-svc-", i) && !i.studentFacing
    && i.image == Some(image) && i.ports == ports
  }

  /** How many instances a service makes. */
  ghost function Width(s: Service): nat {
    if s.key == "thegraph" then 3 else if s.key == "blockscout" || s.key == "chainlink" then 2 else 1
  }

  /** A service, followed by its database, followed by its file store. */
  ghost predicate IsService(envID: string, instances: seq<Instance>, s: Service) {
    && |instances| == Width(s)
    && instances[0].key == s.key && instances[0].kind == ServiceKind && Named(envID, "-svc-", instances[0])
    && instances[0].studentFacing == s.studentFacing && instances[0].image == None
    && (Width(s) > 1 ==> IsCompanion(envID, instances[1], s.key + "-db", Given("postgres:16-alpine"), [5432]))
    && (Width(s) > 2 ==>
          IsCompanion(envID, instances[2], s.key + "-ipfs", Default("ipfs"), [5001, 8080, 4001]))
  }

  ghost function Widths(services: seq<Service>): nat {
    if services == [] then 0 else Widths(services[..|services| - 1]) + Width(services[|services| - 1])
  }

  /** Service `m` starts where those before it end. */
  ghost predicate IsPlaced(envID: string, instances: seq<Instance>, services: seq<Service>, m: nat)
    requires m < |services|
  {
    var from := Widths(services[..m]);
    var to := from + Width(services[m]);
    to <= |instances| && IsService(envID, instances[from..to], services[m])
  }

  ghost predicate ServicesInOrder(envID: string, instances: seq<Instance>, services: seq<Service>) {
    |instances| == Widths(services) && forall m | 0 <= m < |services| :: IsPlaced(envID, instances, services, m)
  }

  lemma ServiceMakes(envID: string, s: Service)
    ensures IsService(envID, ServiceInstances(envID, s), s) && |ServiceInstances(envID, s)| == Width(s)
  {
    SlugOf(s.key);
    SlugOf(s.key + "-db");
    SlugOf(s.key + "-ipfs");
    hide SanitizeRuntimeKey, Slug;
  }

  lemma {:induction false} ServicesMake(envID: string, services: seq<Service>)
    ensures ServicesInOrder(envID, AllServiceInstances(envID, services), services)
  {
    hide IsService, ServiceInstances, Width;
    if services != [] {
      var front, last := services[..|services| - 1], services[|services| - 1];
      ServicesMake(envID, front);
      ServiceMakes(envID, last);
      hide ServicesInOrder;
      OneMoreInOrder(envID, AllServiceInstances(envID, front), front, ServiceInstances(envID, last), last);
      assert services == front + [last];
    }
  }

  lemma OneMoreInOrder(envID: string, so: seq<Instance>, front: seq<Service>, added: seq<Instance>, last: Service)
    requires ServicesInOrder(envID, so, front) && IsService(envID, added, last) && |added| == Width(last)
    ensures ServicesInOrder(envID, so + added, front + [last])
  {
    hide IsPlaced, IsService, Width;
    var services := front + [last];
    assert services[..|front|] == front;
    forall m | 0 <= m < |services| ensures IsPlaced(envID, so + added, services, m) {
      if m < |front| {
        StillPlaced(envID, so, front, added, last, m);
      } else {
        LastIsPlaced(envID, so, front, added, last);
      }
    }
  }

  lemma StillPlaced(envID: string, so: seq<Instance>, front: seq<Service>, added: seq<Instance>, last: Service, m: nat)
    requires m < |front| && IsPlaced(envID, so, front, m)
    ensures IsPlaced(envID, so + added, front + [last], m)
  {
    hide IsService, Width;
    var from := Widths(front[..m]);
    var to := from + Width(front[m]);
    assert (front + [last])[..m] == front[..m];
    assert (so + added)[from..to] == so[from..to];
  }

  lemma LastIsPlaced(envID: string, so: seq<Instance>, front: seq<Service>, added: seq<Instance>, last: Service)
    requires |so| == Widths(front) && IsService(envID, added, last) && |added| == Width(last)
    ensures IsPlaced(envID, so + added, front + [last], |front|)
  {
    hide IsService, Width;
    assert (front + [last])[..|front|] == front;
    assert (so + added)[|so|..|so| + |added|] == added;
  }

  lemma NodeMakes(envID: string, n: Node)
    ensures IsNode(envID, NodeInstance(envID, n), n)
  {
    SlugOf(n.key);
    hide SanitizeRuntimeKey, Slug, ResolvePorts;
  }

  lemma {:induction false} NodesMake(envID: string, nodes: seq<Node>)
    ensures |NodeInstances(envID, nodes)| == |nodes|
    ensures forall j | 0 <= j < |nodes| :: IsNode(envID, NodeInstances(envID, nodes)[j], nodes[j])
  {
    hide IsNode, NodeInstance;
    if nodes != [] {
      NodesMake(envID, nodes[..|nodes| - 1]);
      NodeMakes(envID, nodes[|nodes| - 1]);
    }
  }

  lemma NamedStays(envID: string, infix: string, was: Instance, now: Instance)
    requires Extends(was, now) && Named(envID, infix, was)
    ensures Named(envID, infix, now)
  {
  }

  lemma ServiceStays(envID: string, was: seq<Instance>, now: seq<Instance>, s: Service)
    requires IsService(envID, was, s) && Edited(was, now)
    ensures IsService(envID, now, s)
  {
    forall k | 0 <= k < |was| ensures Named(envID, "-svc-", now[k]) {
      assert Extends(was[k], now[k]);
      NamedStays(envID, "-svc-", was[k], now[k]);
    }
  }

  lemma ServicesStay(envID: string, was: seq<Instance>, now: seq<Instance>, services: seq<Service>)
    requires ServicesInOrder(envID, was, services) && Edited(was, now)
    ensures ServicesInOrder(envID, now, services)
  {
    hide IsPlaced, Extends;
    forall m | 0 <= m < |services| ensures IsPlaced(envID, now, services, m) {
      PlaceStays(envID, was, now, services, m);
    }
  }

  lemma PlaceStays(envID: string, was: seq<Instance>, now: seq<Instance>, services: seq<Service>, m: nat)
    requires m < |services| && IsPlaced(envID, was, services, m) && Edited(was, now)
    ensures IsPlaced(envID, now, services, m)
  {
    hide IsService, Extends, Width;
    var from := Widths(services[..m]);
    var to := from + Width(services[m]);
    ServiceStays(envID, was[from..to], now[from..to], services[m]);
  }

  /** Something uses a visualization, and neither a service nor a node offers one. */
  ghost predicate LacksVisualization(envID: string, b: Blueprint) {
    && (|| "visualization" in b.workspaceTools
        || (exists n <- b.nodes :: "visualization" in n.tools)
        || (exists tool <- b.tools :: tool.key == "visualization"))
    && ServiceOffer(envID, b.services, "visualization") == None
    && (|| "visualization" in b.workspaceTools
        || NodeOffer(envID, b.nodes, "visualization") == None
        || NodeOffer(envID, b.nodes, "visualization").value.instance == "workspace")
  }

  lemma SimulationIff(envID: string, b: Blueprint)
    ensures NeedsSimulation(b, AddServices(envID, AddNodes(envID, Start(envID, b), b.nodes), b.services).targets)
       <==> LacksVisualization(envID, b)
  {
    hide ResolvePorts, PortFor, ServicePodName, WorkspaceTargets, AddNodes, AddServices, ServiceOffer, NodeOffer;
    WorkspaceAt(b.workspaceTools, "visualization");
    NodesAt(envID, Start(envID, b), b.nodes, "visualization");
    ServicesAt(envID, AddNodes(envID, Start(envID, b), b.nodes), b.services, "visualization");
    ServiceOfferNamed(envID, b.services);
    assert UsesTool(b, "visualization") <==>
      || "visualization" in b.workspaceTools
      || (exists n <- b.nodes :: "visualization" in n.tools)
      || (exists tool <- b.tools :: tool.key == "visualization");
  }

  lemma {:induction false} ServiceOfferNamed(envID: string, services: seq<Service>)
    ensures var offer := ServiceOffer(envID, services, "visualization");
            offer.Some? ==> offer.value.instance == "simulation"
  {
    if services != [] {
      ServiceOfferNamed(envID, services[..|services| - 1]);
    }
  }

  /** The workspace, one instance per node, the services with their companions, and a simulation
      exactly when a visualization is lacking. */
  ghost predicate InOrder(envID: string, b: Blueprint, l: seq<Instance>) {
    var n, m := 1 + |b.nodes|, 1 + |b.nodes| + Widths(b.services);
    && |l| == m + (if LacksVisualization(envID, b) then 1 else 0)
    && l[0].key == "workspace" && l[0].kind == WorkspaceKind && l[0].podName == envID && l[0].studentFacing
    && (forall j | 1 <= j < n :: IsNode(envID, l[j], b.nodes[j - 1]))
    && ServicesInOrder(envID, l[n..m], b.services)
    && (LacksVisualization(envID, b) ==> IsSimulation(envID, l[m]))
  }

  ghost predicate IsSimulation(envID: string, i: Instance) {
    && i.key == "simulation" && i.kind == SimulationKind && Named(envID, "-", i) && i.studentFacing
    && i.image == Some(Default("simulation"))
  }

  lemma InOrderStays(envID: string, b: Blueprint, was: seq<Instance>, now: seq<Instance>)
    requires InOrder(envID, b, was) && Edited(was, now)
    ensures InOrder(envID, b, now)
  {
    hide LacksVisualization, ServicesInOrder, Slug;
    var n, m := 1 + |b.nodes|, 1 + |b.nodes| + Widths(b.services);
    ServicesStay(envID, was[n..m], now[n..m], b.services);
    assert Extends(was[0], now[0]);
    forall j | 1 <= j < n ensures IsNode(envID, now[j], b.nodes[j - 1]) {
      assert Extends(was[j], now[j]);
    }
    if LacksVisualization(envID, b) {
      assert Extends(was[m], now[m]);
    }
  }

  lemma SimulationIsOne(envID: string)
    ensures IsSimulation(envID, Simulation(envID))
  {
    SlugOf("simulation");
    hide SanitizeRuntimeKey;
  }

  lemma BaseInOrder(envID: string, b: Blueprint)
    ensures InOrder(envID, b, Base(envID, b).instances)
  {
    var was := Base(envID, b).instances;
    var n, m := 1 + |b.nodes|, 1 + |b.nodes| + Widths(b.services);
    InstancesListed(envID, b);
    SimulationIff(envID, b);
    NodesMake(envID, b.nodes);
    ServicesMake(envID, b.services);
    SimulationIsOne(envID);
    hide Compile, Base, LacksVisualization, NeedsSimulation, AllServiceInstances, NodeInstances, Slug, Width, IsNode,
      IsSimulation, IsService, Simulation, AddNodes, AddServices, CollectPorts;
    assert was[n..m] == AllServiceInstances(envID, b.services);
    forall j | 1 <= j < n ensures IsNode(envID, was[j], b.nodes[j - 1]) {
      assert was[j] == NodeInstances(envID, b.nodes)[j - 1];
    }
  }

  lemma InstancesInOrder(envID: string, b: Blueprint)
    ensures InOrder(envID, b, Compile(envID, b).instances)
  {
    hide InOrder, Compile, Base;
    BaseInOrder(envID, b);
    CompiledExtends(envID, b);
    InOrderStays(envID, b, Base(envID, b).instances, Compile(envID, b).instances);
  }

  // ---- Pods -------------------------------------------------------------------------------------

  ghost predicate RunsImage(b: Blueprint, i: Instance, image: Image) {
    BuildPodConfig(b, i) == Ok(PodConfig(i.podName, image, i.ports))
  }

  /** A node runs the image written in the first blueprint node of its key. */
  ghost predicate RunsNode(b: Blueprint, i: Instance) {
    exists n | 0 <= n < |b.nodes| ::
      && b.nodes[n].key == i.key && (forall m | 0 <= m < n :: b.nodes[m].key != i.key)
      && RunsImage(b, i, Given(b.nodes[n].image))
  }

  /** A service whose key the blueprint knows runs the image written there. */
  ghost predicate RunsService(b: Blueprint, i: Instance) {
    exists n | 0 <= n < |b.services| ::
      && b.services[n].key == i.key && (forall m | 0 <= m < n :: b.services[m].key != i.key)
      && RunsImage(b, i, Given(b.services[n].image))
  }

  /** A companion that no blueprint service is named after runs the image of its compiler line. */
  ghost predicate RunsCompanion(b: Blueprint, i: Instance) {
    && (forall s <- b.services :: s.key != i.key)
    && exists s <- b.services ::
         || (s.key in {"blockscout", "chainlink", "thegraph"} && i.key == s.key + "-db"
             && RunsImage(b, i, Given("postgres:16-alpine")))
         || (s.key == "thegraph" && i.key == s.key + "-ipfs" && RunsImage(b, i, Default("ipfs")))
  }

  lemma {:induction false} FirstNode(nodes: seq<Node>, key: string)
    ensures FindNode(nodes, key).Some? ==>
              exists n | 0 <= n < |nodes| :: nodes[n] == FindNode(nodes, key).value && nodes[n].key == key
                                             && forall m | 0 <= m < n :: nodes[m].key != key
  {
    if nodes != [] && nodes[0].key != key {
      FirstNode(nodes[1..], key);
      if FindNode(nodes, key).Some? {
        var n :| 0 <= n < |nodes[1..]| && nodes[1..][n] == FindNode(nodes, key).value && nodes[1..][n].key == key
                 && forall m | 0 <= m < n :: nodes[1..][m].key != key;
        assert nodes[n + 1] == nodes[1..][n];
        assert forall m | 0 < m < n + 1 :: nodes[m] == nodes[1..][m - 1];
      }
    }
  }

  lemma {:induction false} FirstService(services: seq<Service>, key: string)
    ensures FindService(services, key).Some? ==>
              exists n | 0 <= n < |services| ::
                && services[n] == FindService(services, key).value && services[n].key == key
                && forall m | 0 <= m < n :: services[m].key != key
  {
    if services != [] && services[0].key != key {
      FirstService(services[1..], key);
      if FindService(services, key).Some? {
        var n :| 0 <= n < |services[1..]| && services[1..][n] == FindService(services, key).value
                 && services[1..][n].key == key && forall m | 0 <= m < n :: services[1..][m].key != key;
        assert services[n + 1] == services[1..][n];
        assert forall m | 0 < m < n + 1 :: services[m] == services[1..][m - 1];
      }
    }
  }

  lemma RecordedIsNotBlank()
    ensures !Blank("postgres:16-alpine")
  {
    BlankIsAllSpace("postgres:16-alpine");
    assert "postgres:16-alpine"[0] == 'p';
  }

  /** What every service instance is: a service of the blueprint, or a companion of one. */
  ghost predicate IsOneOf(services: seq<Service>, i: Instance) {
    i.kind == ServiceKind && exists s <- services :: IsOf(s, i)
  }

  ghost predicate IsOf(s: Service, i: Instance) {
    || i.key == s.key
    || (s.key in {"blockscout", "chainlink", "thegraph"} && i.key == s.key + "-db"
        && i.image == Some(Given("postgres:16-alpine")))
    || (s.key == "thegraph" && i.key == s.key + "-ipfs" && i.image == Some(Default("ipfs")))
  }

  lemma MadeIsOf(envID: string, s: Service, i: Instance)
    requires i in ServiceInstances(envID, s)
    ensures i.kind == ServiceKind && IsOf(s, i)
  {
    hide ResolvePorts, ServicePodName;
  }

  lemma {:induction false} ServicesAre(envID: string, services: seq<Service>, i: Instance)
    requires i in AllServiceInstances(envID, services)
    ensures IsOneOf(services, i)
  {
    hide ServiceInstances, IsOf;
    var front, last := services[..|services| - 1], services[|services| - 1];
    assert services == front + [last] && last in services;
    if i in AllServiceInstances(envID, front) {
      ServicesAre(envID, front, i);
      var s :| s in front && IsOf(s, i);
      assert s in services;
    } else {
      MadeIsOf(envID, last, i);
    }
  }

  lemma ServiceRuns(b: Blueprint, i: Instance)
    requires IsOneOf(b.services, i)
    ensures RunsService(b, i) || RunsCompanion(b, i)
  {
    FirstService(b.services, i.key);
    RecordedIsNotBlank();
    hide Blank;
  }

  lemma NodeRuns(b: Blueprint, i: Instance)
    requires i.kind == NodeKind && FindNode(b.nodes, i.key).Some?
    ensures RunsNode(b, i)
  {
    FirstNode(b.nodes, i.key);
  }

  /** Every instance of a compiled blueprint gets a pod, under the name and with the ports recorded for
      it, and with this image. */
  lemma PodOfEveryInstance(envID: string, b: Blueprint, k: nat)
    requires k < |Compile(envID, b).instances|
    ensures var i := Compile(envID, b).instances[k];
            match i.kind
            case WorkspaceKind => i.key == "workspace" && i.podName == envID && RunsImage(b, i, Given(b.image))
            case NodeKind => RunsNode(b, i)
            case ServiceKind => RunsService(b, i) || RunsCompanion(b, i)
            case SimulationKind => i.key == "simulation" && RunsImage(b, i, Default("simulation"))
  {
    hide Compile, Base, BuildPodConfig, AllServiceInstances, NodeInstances, NeedsSimulation, AddNodes, AddServices,
      CollectPorts, RunsNode, RunsService, RunsCompanion, RunsImage, SanitizeRuntimeKey;
    var base, now := Base(envID, b).instances, Compile(envID, b).instances;
    InstancesListed(envID, b);
    CompiledExtends(envID, b);
    assert Extends(base[k], now[k]);
    NodeKinds(envID, b.nodes);
    ServiceKinds(envID, b.services);
    match now[k].kind
    case NodeKind =>
      KindsOfBase(envID, b, base[k]);
      NodeRuns(b, now[k]);
    case ServiceKind =>
      ServicesAre(envID, b.services, base[k]);
      ServiceRuns(b, now[k]);
    case _ => OthersRun(b, now[k]);
  }

  lemma OthersRun(b: Blueprint, i: Instance)
    ensures i.kind == WorkspaceKind ==> RunsImage(b, i, Given(b.image))
    ensures i.kind == SimulationKind ==> RunsImage(b, i, Default("simulation"))
  {
  }

  // ---- Ports and tools --------------------------------------------------------------------------

  /** The port a tool listens on. */
  const STANDARD: map<string, int> :=
    map["ide" := 8443, "terminal" := 7681, "files" := 7681, "logs" := 7681, "network" := 7681, "rpc" := 8545,
        "api_debug" := 6688, "visualization" := 8080, "explorer" := 4000]

  /** The tool that a service brings. */
  const BROUGHT: map<string, string> :=
    map["simulation" := "visualization", "geth" := "rpc", "ipfs" := "api_debug", "chainlink" := "api_debug",
        "thegraph" := "api_debug", "blockscout" := "explorer"]

  lemma StandardPort(tool: string)
    ensures DefaultPort(tool) == if tool in STANDARD then STANDARD[tool] else 0
  {
  }

  lemma BroughtTool(key: string)
    ensures ServiceTools(key) == if key in BROUGHT then [BROUGHT[key]] else []
  {
  }

  /** The ports of some tools are those they listen on, by first appearance and each once. */
  lemma {:induction false} PortsOfTools(tools: seq<string>, more: seq<string>)
    ensures forall p :: p in CollectPorts(tools) <==> exists t <- tools :: t in STANDARD && STANDARD[t] == p
    ensures Distinct(CollectPorts(tools)) && CollectPorts(tools) <= CollectPorts(tools + more)
  {
    CollectedPorts(tools);
    forall p ensures p in CollectPorts(tools) <==> exists t <- tools :: t in STANDARD && STANDARD[t] == p {
      if p in CollectPorts(tools) {
        var t :| t in tools && DefaultPort(t) == p;
        StandardPort(t);
      } else if t :| t in tools && t in STANDARD && STANDARD[t] == p {
        StandardPort(t);
      }
    }
    if more == [] {
      assert tools + more == tools;
    } else {
      var front := more[..|more| - 1];
      PortsOfTools(tools, front);
      assert (tools + more)[..|tools + more| - 1] == tools + front;
    }
  }

  ghost function Unless(ports: seq<int>, port: int): seq<int> { if port in ports then [] else [port] }

  /** The ports written in the blueprint, or else those of the tools, behind the ones that the image
      always has. */
  lemma PortsOfImage(alias: string, ports: seq<int>, tools: seq<string>)
    ensures var chosen := if ports != [] then ports else CollectPorts(tools);
            ResolvePorts(alias, ports, tools)
            == (if alias == "geth" then Unless(chosen, 8545) + Unless(chosen, 8546) + Unless(chosen, 30303)
                else if alias == "chainlink" then Unless(chosen, 6688) + Unless(chosen, 6689) else []) + chosen
  {
    var chosen := if ports != [] then ports else CollectPorts(tools);
    hide CollectPorts, EnsurePort;
    if alias == "geth" {
      PortAdded(chosen, [], 30303);
      PortAdded(chosen, Unless(chosen, 30303), 8546);
      PortAdded(chosen, Unless(chosen, 8546) + Unless(chosen, 30303), 8545);
      assert Unless(chosen, 30303) + [] == Unless(chosen, 30303);
      assert Unless(chosen, 8545) + (Unless(chosen, 8546) + Unless(chosen, 30303))
          == Unless(chosen, 8545) + Unless(chosen, 8546) + Unless(chosen, 30303);
    } else if alias == "chainlink" {
      PortAdded(chosen, [], 6689);
      PortAdded(chosen, Unless(chosen, 6689), 6688);
      assert Unless(chosen, 6689) + [] == Unless(chosen, 6689);
    }
    assert [] + chosen == chosen;
  }

  lemma PortAdded(chosen: seq<int>, so: seq<int>, port: int)
    requires port !in so
    ensures EnsurePort(so + chosen, port) == Unless(chosen, port) + so + chosen
  {
    assert [port] + (so + chosen) == [port] + so + chosen;
    assert [] + so == so;
  }

  /** A tool is reached at its own port if the instance has it, else at the first one it has. */
  lemma PortOfTool(tool: string, ports: seq<int>)
    ensures PortFor(tool, ports) == if tool !in STANDARD then 0
                                    else if STANDARD[tool] in ports || ports == [] then STANDARD[tool] else ports[0]
  {
    StandardPort(tool);
    assert tool in STANDARD ==> STANDARD[tool] > 0;
  }

  // ---- The list of extra tools ------------------------------------------------------------------

  /** `now` has the tools of `was`, with new ones before them. */
  ghost predicate Grown(was: seq<string>, now: seq<string>) {
    && |was| <= |now| && now[|now| - |was|..] == was
    && forall k | 0 <= k < |now| - |was| :: now[k] !in now[k + 1..]
  }

  ghost predicate AllGrown(was: seq<Instance>, now: seq<Instance>) {
    |was| == |now| && forall i | 0 <= i < |was| :: Grown(was[i].tools, now[i].tools)
  }

  lemma GrownOnce(was: seq<string>, now: seq<string>, tool: string)
    requires Grown(was, now)
    ensures Grown(was, EnsureTool(now, tool)) && tool in EnsureTool(now, tool)
    ensures forall t <- now :: t in EnsureTool(now, tool)
  {
    var more := [tool] + now;
    if tool !in now {
      assert more[|more| - |was|..] == now[|now| - |was|..];
      forall k | 0 <= k < |more| - |was| ensures more[k] !in more[k + 1..] {
        assert more[k + 1..] == now[k..];
        if k > 0 {
          assert more[k] == now[k - 1];
        }
      }
    }
  }

  lemma {:induction false} ToolsGrow(base: State, tools: seq<Tool>)
    ensures AllGrown(base.instances, AddTools(base, tools).instances)
  {
    hide Grown, EnsureTool;
    if tools == [] {
      forall i | 0 <= i < |base.instances| ensures Grown(base.instances[i].tools, base.instances[i].tools) {
        SameIsGrown(base.instances[i].tools);
      }
    } else {
      var front, last := tools[..|tools| - 1], tools[|tools| - 1];
      ToolsGrow(base, front);
      var so := AddTools(base, front);
      forall i | 0 <= i < |base.instances|
        ensures Grown(base.instances[i].tools, EnsureTool(so.instances[i].tools, last.key))
      {
        GrownOnce(base.instances[i].tools, so.instances[i].tools, last.key);
      }
    }
  }

  lemma SameIsGrown(tools: seq<string>)
    ensures Grown(tools, tools)
  {
  }

  /** The instance that a target names lists its tool, unless the target was there before. */
  ghost predicate Listed(base: State, s: State, t: string) {
    t in s.targets && t !in base.targets && Names(s, s.targets[t].instance) ==>
      t in s.instances[IndexOf(s.instances, s.targets[t].instance).value].tools
  }

  lemma AddToolLists(base: State, s: State, tool: Tool, t: string)
    requires Edited(base.instances, s.instances) && Edited(base.instances, AddTool(s, tool).instances)
    requires Listed(base, s, t)
    ensures Listed(base, AddTool(s, tool), t)
  {
    var v := AddTool(s, tool);
    if t in v.targets && t !in base.targets && Names(v, v.targets[t].instance) {
      var key := v.targets[t].instance;
      EditedLookup(base.instances, s.instances, key);
      EditedLookup(base.instances, v.instances, key);
    }
  }

  lemma {:induction false} ToolsListed(base: State, tools: seq<Tool>, t: string)
    ensures Edited(base.instances, AddTools(base, tools).instances) && Listed(base, AddTools(base, tools), t)
  {
    hide Listed, AddTool;
    if tools == [] {
      StartsListed(base, t);
    } else {
      var front, last := tools[..|tools| - 1], tools[|tools| - 1];
      ToolsListed(base, front, t);
      AddToolEdits(base.instances, AddTools(base, front), last);
      AddToolLists(base, AddTools(base, front), last, t);
    }
  }

  lemma StartsListed(base: State, t: string)
    ensures Edited(base.instances, base.instances) && Listed(base, base, t)
  {
  }

  /** An entry of the list adds its tool to the instance it names, and no instance loses a tool. */
  lemma EntriesAreListed(envID: string, b: Blueprint, i: nat)
    requires i < |b.tools| && Decides(Base(envID, b), b.tools, i) && Names(Base(envID, b), b.tools[i].target)
    ensures var l := Compile(envID, b).instances;
            && AllGrown(Base(envID, b).instances, l)
            && IndexOf(l, b.tools[i].target).Some? && b.tools[i].key in l[IndexOf(l, b.tools[i].target).value].tools
  {
    var base, t := Base(envID, b), b.tools[i].key;
    ToolsGrow(base, b.tools);
    ToolsListed(base, b.tools, t);
    TargetsAreDecided(envID, b, t);
    EditedLookup(base.instances, Compile(envID, b).instances, b.tools[i].target);
  }

  // ---- Which instance a tool is found on ----------------------------------------------------------

  ghost predicate Brings(s: Service, t: string) { s.key in BROUGHT && BROUGHT[s.key] == t }

  /** The ports of a service, and the one its tool is found at. */
  ghost function PortOfService(s: Service, t: string): int { PortFor(t, ResolvePorts(s.alias, s.ports, [t])) }

  ghost function PortOfNode(n: Node, t: string): int { PortFor(t, ResolvePorts(n.alias, n.ports, n.tools)) }

  lemma {:induction false} LastServiceOffers(envID: string, services: seq<Service>, t: string, m: nat)
    requires m < |services| && Brings(services[m], t) && PortOfService(services[m], t) > 0
    requires forall k | m < k < |services| :: !Brings(services[k], t)
    ensures ServiceOffer(envID, services, t) == Some(Ref(services[m].key, PortOfService(services[m], t)))
  {
    hide ResolvePorts, PortFor;
    var n := |services| - 1;
    BroughtTool(services[n].key);
    if m < n {
      LastServiceOffers(envID, services[..n], t, m);
    }
  }

  lemma {:induction false} NoServiceOffers(envID: string, services: seq<Service>, t: string)
    requires forall s <- services :: !Brings(s, t)
    ensures ServiceOffer(envID, services, t) == None
  {
    hide ResolvePorts, PortFor;
    if services != [] {
      var n := |services| - 1;
      BroughtTool(services[n].key);
      assert services[n] in services;
      NoServiceOffers(envID, services[..n], t);
    }
  }

  lemma {:induction false} FirstNodeOffers(envID: string, nodes: seq<Node>, t: string, j: nat)
    requires j < |nodes| && t in nodes[j].tools && PortOfNode(nodes[j], t) > 0
    requires forall k | 0 <= k < j :: t !in nodes[k].tools
    ensures NodeOffer(envID, nodes, t) == Some(Ref(nodes[j].key, PortOfNode(nodes[j], t)))
  {
    hide ResolvePorts, PortFor;
    var n := |nodes| - 1;
    if j < n {
      FirstNodeOffers(envID, nodes[..n], t, j);
    } else {
      NoNodeOffers(envID, nodes[..n], t);
    }
  }

  lemma {:induction false} NoNodeOffers(envID: string, nodes: seq<Node>, t: string)
    requires forall k | 0 <= k < |nodes| :: t !in nodes[k].tools
    ensures NodeOffer(envID, nodes, t) == None
  {
    if nodes != [] {
      NoNodeOffers(envID, nodes[..|nodes| - 1], t);
    }
  }

  /** Tool `t` is found on `instance` at `port`. */
  ghost predicate FoundOn(envID: string, b: Blueprint, t: string, instance: string, port: int) {
    t in Compile(envID, b).targets && Compile(envID, b).targets[t] == Ref(instance, port)
  }

  /** A service takes its tool over from everything, and of several the last one. */
  lemma ServiceTakesOver(envID: string, b: Blueprint, t: string, m: nat)
    requires m < |b.services| && Brings(b.services[m], t) && PortOfService(b.services[m], t) > 0
    requires forall k | m < k < |b.services| :: !Brings(b.services[k], t)
    ensures FoundOn(envID, b, t, b.services[m].key, PortOfService(b.services[m], t))
  {
    hide Compile, Base, ResolvePorts, PortFor;
    LastServiceOffers(envID, b.services, t, m);
    assert t == "visualization" ==> b.services[m].key == "simulation";
    BaseIsProvided(envID, b, t);
    TargetsAreDecided(envID, b, t);
  }

  /** Without one the workspace keeps its tools, and a tool it lacks is found on the first node that
      has it; a visualization only counts outside the workspace. */
  lemma WorkspaceThenNodes(envID: string, b: Blueprint, t: string)
    requires t in STANDARD && t != "visualization" && forall s <- b.services :: !Brings(s, t)
    ensures t in b.workspaceTools ==> FoundOn(envID, b, t, "workspace", STANDARD[t])
    ensures t !in b.workspaceTools ==>
              forall j | 0 <= j < |b.nodes| && t in b.nodes[j].tools && PortOfNode(b.nodes[j], t) > 0
                         && forall k | 0 <= k < j :: t !in b.nodes[k].tools ::
                FoundOn(envID, b, t, b.nodes[j].key, PortOfNode(b.nodes[j], t))
  {
    hide Compile, Base, ResolvePorts, PortFor;
    NoServiceOffers(envID, b.services, t);
    BaseIsProvided(envID, b, t);
    TargetsAreDecided(envID, b, t);
    StandardPort(t);
    forall j | 0 <= j < |b.nodes| && t in b.nodes[j].tools && PortOfNode(b.nodes[j], t) > 0
               && forall k | 0 <= k < j :: t !in b.nodes[k].tools
      ensures NodeOffer(envID, b.nodes, t) == Some(Ref(b.nodes[j].key, PortOfNode(b.nodes[j], t)))
    {
      FirstNodeOffers(envID, b.nodes, t, j);
    }
  }

  /** A visualization that is lacking is found on the simulation. */
  lemma SimulationOffers(envID: string, b: Blueprint)
    requires LacksVisualization(envID, b)
    ensures FoundOn(envID, b, "visualization", "simulation", 8080)
  {
    hide Compile, Base, ServiceOffer, NodeOffer;
    BaseIsProvided(envID, b, "visualization");
    TargetsAreDecided(envID, b, "visualization");
    assert UsesTool(b, "visualization") <==>
      || "visualization" in b.workspaceTools
      || (exists n <- b.nodes :: "visualization" in n.tools)
      || (exists tool <- b.tools :: tool.key == "visualization");
  }
}
