/** Compiling an experiment blueprint into runtime instances and tool targets, and the pod of
    each instance (backend/internal/service/env_manager_service.go:869-1155, 1240-1379,
    1605-1707; runtime_bootstrap.go:363-379). Environment variables are left out. */
module RuntimeCompiler {
  import opened Common

  /** `alias` is what the image resolves to among the known images. */
  datatype Node = Node(key: string, image: string, alias: string, ports: seq<int>, tools: seq<string>,
                       studentFacing: bool)

  datatype Service = Service(key: string, image: string, alias: string, ports: seq<int>, studentFacing: bool)

  datatype Tool = Tool(key: string, target: string)

  datatype Blueprint = Blueprint(image: string, workspaceTools: seq<string>, nodes: seq<Node>, services: seq<Service>,
                                 tools: seq<Tool>)

  datatype Kind = WorkspaceKind | NodeKind | ServiceKind | SimulationKind

  /** `image` is only set where the compiler records one for a pod that the blueprint does not name. */
  datatype Instance = Instance(key: string, kind: Kind, podName: string, ports: seq<int>, studentFacing: bool,
                               tools: seq<string>, image: Option<Image>)

  /** An image written in the blueprint or the compiler, or the default one for a name. */
  datatype Image = Given(ref: string) | Default(name: string)

  datatype Ref = Ref(instance: string, port: int)

  datatype State = State(instances: seq<Instance>, targets: map<string, Ref>)

  datatype PodConfig = PodConfig(name: string, image: Image, ports: seq<int>)

  const WORKSPACE := "workspace"
  const SIMULATION := "simulation"
  const VISUALIZATION := "visualization"

  // ---- Ports ----------------------------------------------------------------------------------

  function DefaultPort(tool: string): (port: int)
    ensures port >= 0
  {
    if tool == "ide" then 8443
    else if tool == "terminal" || tool == "files" || tool == "logs" || tool == "network" then 7681
    else if tool == "rpc" then 8545
    else if tool == "api_debug" then 6688
    else if tool == VISUALIZATION then 8080
    else if tool == "explorer" then 4000
    else 0
  }

  function CollectPorts(tools: seq<string>): seq<int> {
    if tools == [] then []
    else
      var ports, port := CollectPorts(tools[..|tools| - 1]), DefaultPort(tools[|tools| - 1]);
      if port > 0 && port !in ports then ports + [port] else ports
  }

  method CollectPortsForTools(tools: seq<string>) returns (ports: seq<int>)
    ensures ports == CollectPorts(tools)
    ensures Distinct(ports)
    ensures forall p :: p in ports <==> p > 0 && exists t | t in tools :: DefaultPort(t) == p
  {
    var seen: set<int> := {};
    ports := [];
    for i := 0 to |tools|
      invariant ports == CollectPorts(tools[..i])
      invariant forall p :: p in seen <==> p in ports
    {
      assert tools[..i + 1][..i] == tools[..i];
      var port := DefaultPort(tools[i]);
      if port > 0 && port !in seen {
        seen := seen + {port};
        ports := ports + [port];
      }
    }
    assert tools[..|tools|] == tools;
    CollectedPorts(tools);
  }

  lemma {:induction false} CollectedPorts(tools: seq<string>)
    ensures Distinct(CollectPorts(tools))
    ensures forall p :: p in CollectPorts(tools) <==> p > 0 && exists t | t in tools :: DefaultPort(t) == p
  {
    if tools != [] {
      var front, last := tools[..|tools| - 1], tools[|tools| - 1];
      CollectedPorts(front);
      assert tools == front + [last];
      assert last in tools;
      forall p ensures p in CollectPorts(tools) <==> p > 0 && exists t | t in tools :: DefaultPort(t) == p {
        if p in CollectPorts(front) {
          var t :| t in front && DefaultPort(t) == p;
          assert t in tools;
        }
      }
    }
  }

  function EnsurePort(ports: seq<int>, port: int): seq<int> { if port in ports then ports else [port] + ports }

  function EnsureTool(tools: seq<string>, tool: string): seq<string> { if tool in tools then tools else [tool] + tools }

  /** The port a tool talks to on an instance; 0 for a tool that needs none. */
  function PortFor(tool: string, ports: seq<int>): int {
    var expected := DefaultPort(tool);
    if expected == 0 then 0
    else if expected in ports then expected
    else if ports != [] then ports[0]
    else expected
  }

  method PortForTargetTool(tool: string, ports: seq<int>) returns (port: int)
    ensures port == PortFor(tool, ports)
  {
    var expected := DefaultPort(tool);
    if expected == 0 {
      return 0;
    }
    for i := 0 to |ports|
      invariant expected !in ports[..i]
    {
      if ports[i] == expected {
        return expected;
      }
    }
    assert ports[..|ports|] == ports;
    if |ports| > 0 {
      return ports[0];
    }
    return expected;
  }

  function ResolvePorts(alias: string, ports: seq<int>, tools: seq<string>): seq<int> {
    var chosen := if ports != [] then ports else CollectPorts(tools);
    if alias == "geth" then EnsurePort(EnsurePort(EnsurePort(chosen, 30303), 8546), 8545)
    else if alias == "chainlink" then EnsurePort(EnsurePort(chosen, 6689), 6688)
    else chosen
  }

  // ---- Names ----------------------------------------------------------------------------------

  function Hyphenate(s: string): string {
    seq(|s|, i requires 0 <= i < |s| => if s[i] == '_' || s[i] == ' ' then '-' else s[i])
  }

  function SanitizeRuntimeKey(key: string): string { Hyphenate(Lower(Trim(key))) }

  function PodName(envID: string, key: string): string { envID + "-" + SanitizeRuntimeKey(key) }

  function ServicePodName(envID: string, key: string): string { envID + "-svc-" + SanitizeRuntimeKey(key) }

  // ---- The compiler, step by step ---------------------------------------------------------------

  function ServiceTools(key: string): seq<string> {
    if key == SIMULATION then [VISUALIZATION]
    else if key == "geth" then ["rpc"]
    else if key == "ipfs" || key == "chainlink" || key == "thegraph" then ["api_debug"]
    else if key == "blockscout" then ["explorer"]
    else []
  }

  function Companion(envID: string, key: string, image: Image, ports: seq<int>): Instance {
    Instance(key, ServiceKind, ServicePodName(envID, key), ports, false, [], Some(image))
  }

  function Postgres(envID: string, key: string): Instance {
    Companion(envID, key, Given("postgres:16-alpine"), [5432])
  }

  function ServiceInstances(envID: string, s: Service): (r: seq<Instance>)
    ensures r != [] && r[0].key == s.key
  {
    var ports := ResolvePorts(s.alias, s.ports, ServiceTools(s.key));
    [Instance(s.key, ServiceKind, ServicePodName(envID, s.key), ports, s.studentFacing, ServiceTools(s.key), None)]
    + (if s.key == "blockscout" || s.key == "chainlink" then [Postgres(envID, s.key + "-db")]
       else if s.key == "thegraph" then
         [Postgres(envID, s.key + "-db"), Companion(envID, s.key + "-ipfs", Default("ipfs"), [5001, 8080, 4001])]
       else [])
  }

  function WorkspaceTargets(tools: seq<string>): map<string, Ref> {
    if tools == [] then map[]
    else
      var targets, tool := WorkspaceTargets(tools[..|tools| - 1]), tools[|tools| - 1];
      if DefaultPort(tool) > 0 then targets[tool := Ref(WORKSPACE, DefaultPort(tool))] else targets
  }

  function WorkspaceInstance(envID: string, b: Blueprint): Instance {
    Instance(WORKSPACE, WorkspaceKind, envID, CollectPorts(b.workspaceTools), true, b.workspaceTools, None)
  }

  function Start(envID: string, b: Blueprint): State {
    State([WorkspaceInstance(envID, b)], WorkspaceTargets(b.workspaceTools))
  }

  function NodeInstance(envID: string, n: Node): Instance {
    Instance(n.key, NodeKind, PodName(envID, n.key), ResolvePorts(n.alias, n.ports, n.tools), n.studentFacing, n.tools,
             None)
  }

  /** A node offers a tool that nothing offered before it. */
  function Offer(targets: map<string, Ref>, key: string, ports: seq<int>, tools: seq<string>): map<string, Ref> {
    if tools == [] then targets
    else
      var so, tool := Offer(targets, key, ports, tools[..|tools| - 1]), tools[|tools| - 1];
      if tool !in so && PortFor(tool, ports) > 0 then so[tool := Ref(key, PortFor(tool, ports))] else so
  }

  function AddNodes(envID: string, s: State, nodes: seq<Node>): State {
    if nodes == [] then s
    else
      var so, node := AddNodes(envID, s, nodes[..|nodes| - 1]), NodeInstance(envID, nodes[|nodes| - 1]);
      State(so.instances + [node], Offer(so.targets, node.key, node.ports, node.tools))
  }

  /** A service takes over its tool from whatever offered it. */
  function AddServices(envID: string, s: State, services: seq<Service>): State {
    if services == [] then s
    else
      var so, added := AddServices(envID, s, services[..|services| - 1]),
        ServiceInstances(envID, services[|services| - 1]);
      var tools := ServiceTools(services[|services| - 1].key);
      State(so.instances + added,
            if tools != [] && PortFor(tools[0], added[0].ports) > 0
            then so.targets[tools[0] := Ref(added[0].key, PortFor(tools[0], added[0].ports))] else so.targets)
  }

  predicate UsesTool(b: Blueprint, tool: string) {
    || tool in b.workspaceTools
    || (exists i | 0 <= i < |b.nodes| :: tool in b.nodes[i].tools)
    || (exists i | 0 <= i < |b.tools| :: b.tools[i].key == tool)
  }

  function Simulation(envID: string): Instance {
    Instance(SIMULATION, SimulationKind, PodName(envID, SIMULATION), [8080], true, [VISUALIZATION],
             Some(Default(SIMULATION)))
  }

  predicate NeedsSimulation(b: Blueprint, targets: map<string, Ref>) {
    (VISUALIZATION in targets ==> targets[VISUALIZATION].instance == WORKSPACE) && UsesTool(b, VISUALIZATION)
  }

  function AddSimulation(envID: string, b: Blueprint, s: State): State {
    if NeedsSimulation(b, s.targets) then
      State(s.instances + [Simulation(envID)], s.targets[VISUALIZATION := Ref(SIMULATION, 8080)])
    else s
  }

  function IndexOf(instances: seq<Instance>, key: string): (r: Option<nat>)
    ensures r.Some? ==> r.value < |instances| && instances[r.value].key == key
    ensures r.Some? ==> forall i | 0 <= i < r.value :: instances[i].key != key
    ensures r == None ==> forall i | 0 <= i < |instances| :: instances[i].key != key
  {
    if instances == [] then None
    else
      match IndexOf(instances[..|instances| - 1], key)
      case Some(i) => Some(i)
      case None => if instances[|instances| - 1].key == key then Some(|instances| - 1) else None
  }

  function PortsOf(instances: seq<Instance>, key: string): seq<int> {
    match IndexOf(instances, key)
    case Some(i) => instances[i].ports
    case None => []
  }

  function AddTool(s: State, tool: Tool): State {
    var port := PortFor(tool.key, PortsOf(s.instances, tool.target));
    if tool.key in s.targets || port <= 0 || tool.target == "" then s
    else
      State(match IndexOf(s.instances, tool.target)
            case Some(i) =>
              var was := s.instances[i];
              s.instances[i := was.(ports := EnsurePort(was.ports, port), tools := EnsureTool(was.tools, tool.key))]
            case None => s.instances,
            s.targets[tool.key := Ref(tool.target, port)])
  }

  function AddTools(s: State, tools: seq<Tool>): State {
    if tools == [] then s else AddTool(AddTools(s, tools[..|tools| - 1]), tools[|tools| - 1])
  }

  /** Everything before the list of extra tools. */
  function Base(envID: string, b: Blueprint): State {
    AddSimulation(envID, b, AddServices(envID, AddNodes(envID, Start(envID, b), b.nodes), b.services))
  }

  function Compile(envID: string, b: Blueprint): State { AddTools(Base(envID, b), b.tools) }

  // ---- The loops --------------------------------------------------------------------------------

  method OfferTools(was: map<string, Ref>, instance: Instance) returns (targets: map<string, Ref>)
    ensures targets == Offer(was, instance.key, instance.ports, instance.tools)
  {
    targets := was;
    var tools := instance.tools;
    for i := 0 to |tools|
      invariant targets == Offer(was, instance.key, instance.ports, tools[..i])
    {
      assert tools[..i + 1][..i] == tools[..i];
      if tools[i] in targets {
        continue;
      }
      var port := PortForTargetTool(tools[i], instance.ports);
      if port > 0 {
        targets := targets[tools[i] := Ref(instance.key, port)];
      }
    }
    assert tools[..|tools|] == tools;
  }

  method ApplyTool(s: State, tool: Tool) returns (r: State)
    ensures r == AddTool(s, tool)
  {
    if tool.key in s.targets {
      return s;
    }
    var ports: seq<int> := [];
    var index := -1;
    for i := 0 to |s.instances|
      invariant forall k | 0 <= k < i :: s.instances[k].key != tool.target
      invariant index == -1 && ports == []
    {
      if s.instances[i].key == tool.target {
        ports, index := s.instances[i].ports, i;
        break;
      }
    }
    var port := PortForTargetTool(tool.key, ports);
    r := s;
    if port > 0 && tool.target != "" {
      r := r.(targets := r.targets[tool.key := Ref(tool.target, port)]);
      if index >= 0 {
        var was := s.instances[index];
        r := r.(instances := r.instances[index := was.(ports := EnsurePort(was.ports, port),
                                                       tools := EnsureTool(was.tools, tool.key))]);
      }
    }
  }

  method OfferWorkspaceTools(tools: seq<string>) returns (targets: map<string, Ref>)
    ensures targets == WorkspaceTargets(tools)
  {
    targets := map[];
    for i := 0 to |tools|
      invariant targets == WorkspaceTargets(tools[..i])
    {
      assert tools[..i + 1][..i] == tools[..i];
      var port := DefaultPort(tools[i]);
      if port > 0 {
        targets := targets[tools[i] := Ref(WORKSPACE, port)];
      }
    }
    assert tools[..|tools|] == tools;
  }

  method AppendServices(envID: string, s: State, services: seq<Service>) returns (r: State)
    ensures r == AddServices(envID, s, services)
  {
    var instances, targets := s.instances, s.targets;
    for i := 0 to |services|
      invariant State(instances, targets) == AddServices(envID, s, services[..i])
    {
      assert services[..i + 1][..i] == services[..i];
      var added := ServiceInstances(envID, services[i]);
      var tools := ServiceTools(services[i].key);
      instances := instances + added;
      if tools != [] {
        var port := PortForTargetTool(tools[0], added[0].ports);
        if port > 0 {
          targets := targets[tools[0] := Ref(added[0].key, port)];
        }
      }
    }
    assert services[..|services|] == services;
    r := State(instances, targets);
  }

  method BuildExperimentRuntimeState(envID: string, b: Blueprint) returns (state: State, primary: string)
    ensures state == Compile(envID, b) && primary == WORKSPACE
  {
    hide AddTool, AddServices, NodeInstance;
    var ports := CollectPortsForTools(b.workspaceTools);
    var instances := [Instance(WORKSPACE, WorkspaceKind, envID, ports, true, b.workspaceTools, None)];
    var targets := OfferWorkspaceTools(b.workspaceTools);
    ghost var start := Start(envID, b);

    for i := 0 to |b.nodes|
      invariant State(instances, targets) == AddNodes(envID, start, b.nodes[..i])
    {
      assert b.nodes[..i + 1][..i] == b.nodes[..i];
      var node := NodeInstance(envID, b.nodes[i]);
      instances := instances + [node];
      targets := OfferTools(targets, node);
    }
    assert b.nodes[..|b.nodes|] == b.nodes;

    state := AppendServices(envID, State(instances, targets), b.services);
    if NeedsSimulation(b, state.targets) {
      state := State(state.instances + [Simulation(envID)], state.targets[VISUALIZATION := Ref(SIMULATION, 8080)]);
    }

    ghost var base := state;
    for i := 0 to |b.tools|
      invariant state == AddTools(base, b.tools[..i])
    {
      assert b.tools[..i + 1][..i] == b.tools[..i];
      state := ApplyTool(state, b.tools[i]);
    }
    assert b.tools[..|b.tools|] == b.tools;
    primary := WORKSPACE;
  }

  // ---- Pods -------------------------------------------------------------------------------------

  function FindNode(nodes: seq<Node>, key: string): (r: Option<Node>)
    ensures r.Some? ==> r.value in nodes && r.value.key == key
    ensures r == None ==> forall n | n in nodes :: n.key != key
  {
    if nodes == [] then None else if nodes[0].key == key then Some(nodes[0]) else FindNode(nodes[1..], key)
  }

  function FindService(services: seq<Service>, key: string): (r: Option<Service>)
    ensures r.Some? ==> r.value in services && r.value.key == key
    ensures r == None ==> forall s | s in services :: s.key != key
  {
    if services == [] then None
    else if services[0].key == key then Some(services[0])
    else FindService(services[1..], key)
  }

  function BuildPodConfig(b: Blueprint, i: Instance): Result<PodConfig, string> {
    match i.kind
    case WorkspaceKind => Ok(PodConfig(i.podName, Given(b.image), i.ports))
    case NodeKind =>
      (match FindNode(b.nodes, i.key)
       case None => Err("runtime node not found in blueprint")
       case Some(n) => Ok(PodConfig(i.podName, Given(n.image), i.ports)))
    case ServiceKind =>
      (match FindService(b.services, i.key)
       case Some(s) => Ok(PodConfig(i.podName, Given(s.image), i.ports))
       case None =>
         var chosen := i.image.Some? && (i.image.value.Given? ==> !Blank(i.image.value.ref));
         var image := if chosen then i.image.value else Default(i.key);
         Ok(PodConfig(i.podName, image, i.ports)))
    case SimulationKind => Ok(PodConfig(i.podName, Default(SIMULATION), i.ports))
  }

  // ---- Soundness of the targets -------------------------------------------------------------------

  ghost predicate Reaches(instances: seq<Instance>, ref: Ref) {
    exists i | 0 <= i < |instances| :: instances[i].key == ref.instance && ref.port in instances[i].ports
  }

  /** Every tool target names an instance that has the port. */
  ghost predicate Sound(s: State) { forall t | t in s.targets :: Reaches(s.instances, s.targets[t]) }

  lemma ReachesMore(instances: seq<Instance>, more: seq<Instance>, ref: Ref)
    requires Reaches(instances, ref)
    ensures Reaches(instances + more, ref)
  {
    var i :| 0 <= i < |instances| && instances[i].key == ref.instance && ref.port in instances[i].ports;
    assert (instances + more)[i] == instances[i];
  }

  /** On a list that is not empty, the port found is one of the list. */
  lemma PortIsListed(tool: string, ports: seq<int>)
    requires PortFor(tool, ports) > 0 && ports != []
    ensures PortFor(tool, ports) in ports
  {
  }

  lemma ResolvedPortsServe(alias: string, ports: seq<int>, tools: seq<string>, tool: string)
    requires tool in tools && DefaultPort(tool) > 0
    ensures ResolvePorts(alias, ports, tools) != []
  {
    CollectedPorts(tools);
    assert ports == [] ==> DefaultPort(tool) in CollectPorts(tools);
  }

  lemma {:induction false} WorkspaceSound(envID: string, b: Blueprint, tools: seq<string>)
    requires forall t | t in tools :: t in b.workspaceTools
    ensures forall t | t in WorkspaceTargets(tools) ::
              Reaches([WorkspaceInstance(envID, b)], WorkspaceTargets(tools)[t])
  {
    if tools != [] {
      var front, last := tools[..|tools| - 1], tools[|tools| - 1];
      assert forall t | t in front :: t in tools;
      WorkspaceSound(envID, b, front);
      assert last in tools;
      CollectedPorts(b.workspaceTools);
      assert DefaultPort(last) > 0 ==> Reaches([WorkspaceInstance(envID, b)], Ref(WORKSPACE, DefaultPort(last))) by {
        assert [WorkspaceInstance(envID, b)][0].key == WORKSPACE;
      }
    }
  }

  lemma {:induction false} OfferSound(s: State, node: Instance, tools: seq<string>)
    requires Sound(s) && forall t | t in tools && DefaultPort(t) > 0 :: node.ports != []
    ensures Sound(State(s.instances + [node], Offer(s.targets, node.key, node.ports, tools)))
  {
    var instances := s.instances + [node];
    if tools == [] {
      forall t | t in s.targets ensures Reaches(instances, s.targets[t]) {
        ReachesMore(s.instances, [node], s.targets[t]);
      }
    } else {
      var front, last := tools[..|tools| - 1], tools[|tools| - 1];
      assert forall t | t in front :: t in tools;
      OfferSound(s, node, front);
      assert last in tools;
      if PortFor(last, node.ports) > 0 {
        PortIsListed(last, node.ports);
        assert instances[|s.instances|] == node;
        assert Reaches(instances, Ref(node.key, PortFor(last, node.ports)));
      }
    }
  }

  lemma {:induction false} NodesSound(envID: string, s: State, nodes: seq<Node>)
    requires Sound(s)
    ensures Sound(AddNodes(envID, s, nodes))
  {
    if nodes != [] {
      NodesSound(envID, s, nodes[..|nodes| - 1]);
      var n := nodes[|nodes| - 1];
      forall t | t in n.tools && DefaultPort(t) > 0 ensures NodeInstance(envID, n).ports != [] {
        ResolvedPortsServe(n.alias, n.ports, n.tools, t);
      }
      OfferSound(AddNodes(envID, s, nodes[..|nodes| - 1]), NodeInstance(envID, n), n.tools);
    }
  }

  lemma SetSound(s: State, more: seq<Instance>, tool: string, ref: Ref)
    requires Sound(s) && Reaches(s.instances + more, ref)
    ensures Sound(State(s.instances + more, s.targets[tool := ref]))
    ensures Sound(State(s.instances + more, s.targets))
  {
    forall t | t in s.targets ensures Reaches(s.instances + more, s.targets[t]) {
      ReachesMore(s.instances, more, s.targets[t]);
    }
  }

  lemma MoreSound(s: State, more: seq<Instance>)
    requires Sound(s)
    ensures Sound(State(s.instances + more, s.targets))
  {
    forall t | t in s.targets ensures Reaches(s.instances + more, s.targets[t]) {
      ReachesMore(s.instances, more, s.targets[t]);
    }
  }

  lemma {:induction false} ServicesSound(envID: string, s: State, services: seq<Service>)
    requires Sound(s)
    ensures Sound(AddServices(envID, s, services))
  {
    if services != [] {
      var so, spec := AddServices(envID, s, services[..|services| - 1]), services[|services| - 1];
      ServicesSound(envID, s, services[..|services| - 1]);
      var added, tools := ServiceInstances(envID, spec), ServiceTools(spec.key);
      MoreSound(so, added);
      if tools != [] && PortFor(tools[0], added[0].ports) > 0 {
        ResolvedPortsServe(spec.alias, spec.ports, tools, tools[0]);
        PortIsListed(tools[0], added[0].ports);
        assert (so.instances + added)[|so.instances|] == added[0];
        SetSound(so, added, tools[0], Ref(added[0].key, PortFor(tools[0], added[0].ports)));
      }
    }
  }

  /** Workspace, nodes, services and the built-in simulation give only sound targets. */
  lemma BaseIsSound(envID: string, b: Blueprint)
    ensures Sound(Base(envID, b))
  {
    WorkspaceSound(envID, b, b.workspaceTools);
    NodesSound(envID, Start(envID, b), b.nodes);
    var s := AddServices(envID, AddNodes(envID, Start(envID, b), b.nodes), b.services);
    ServicesSound(envID, AddNodes(envID, Start(envID, b), b.nodes), b.services);
    assert (s.instances + [Simulation(envID)])[|s.instances|] == Simulation(envID);
    assert Reaches(s.instances + [Simulation(envID)], Ref(SIMULATION, 8080));
    SetSound(s, [Simulation(envID)], VISUALIZATION, Ref(SIMULATION, 8080));
  }

  // ---- Who provides a tool before the list is read -----------------------------------------------

  /** The last service that brings the tool. */
  function ServiceOffer(envID: string, services: seq<Service>, t: string): Option<Ref> {
    if services == [] then None
    else
      var last := services[|services| - 1];
      var main := ServiceInstances(envID, last)[0];
      if ServiceTools(last.key) == [t] && PortFor(t, main.ports) > 0 then Some(Ref(last.key, PortFor(t, main.ports)))
      else ServiceOffer(envID, services[..|services| - 1], t)
  }

  /** The first node that lists the tool and has a port for it. */
  function NodeOffer(envID: string, nodes: seq<Node>, t: string): Option<Ref> {
    if nodes == [] then None
    else
      var front, last := NodeOffer(envID, nodes[..|nodes| - 1], t), NodeInstance(envID, nodes[|nodes| - 1]);
      if front.Some? then front
      else if t in last.tools && PortFor(t, last.ports) > 0 then Some(Ref(last.key, PortFor(t, last.ports)))
      else None
  }

  /** A service beats the workspace, the workspace beats a node, and the built-in simulation
      replaces a workspace or missing visualization that something uses. */
  function Provider(envID: string, b: Blueprint, t: string): Option<Ref> {
    var service := ServiceOffer(envID, b.services, t);
    var offered :=
      if service.Some? then service
      else if t in b.workspaceTools && DefaultPort(t) > 0 then Some(Ref(WORKSPACE, DefaultPort(t)))
      else NodeOffer(envID, b.nodes, t);
    if t == VISUALIZATION && (offered.Some? ==> offered.value.instance == WORKSPACE) && UsesTool(b, t)
    then Some(Ref(SIMULATION, 8080)) else offered
  }

  function Lookup(targets: map<string, Ref>, t: string): Option<Ref> { if t in targets then Some(targets[t]) else None }

  lemma {:induction false} WorkspaceAt(tools: seq<string>, t: string)
    ensures Lookup(WorkspaceTargets(tools), t)
            == if t in tools && DefaultPort(t) > 0 then Some(Ref(WORKSPACE, DefaultPort(t))) else None
  {
    if tools != [] {
      WorkspaceAt(tools[..|tools| - 1], t);
      assert tools == tools[..|tools| - 1] + [tools[|tools| - 1]];
    }
  }

  lemma {:induction false} OfferAt(targets: map<string, Ref>, key: string, ports: seq<int>, tools: seq<string>,
                                   t: string)
    ensures Lookup(Offer(targets, key, ports, tools), t)
            == if t in targets then Some(targets[t])
               else if t in tools && PortFor(t, ports) > 0 then Some(Ref(key, PortFor(t, ports))) else None
  {
    if tools != [] {
      OfferAt(targets, key, ports, tools[..|tools| - 1], t);
      assert tools == tools[..|tools| - 1] + [tools[|tools| - 1]];
    }
  }

  lemma {:induction false} NodesAt(envID: string, s: State, nodes: seq<Node>, t: string)
    ensures Lookup(AddNodes(envID, s, nodes).targets, t)
            == if t in s.targets then Some(s.targets[t]) else NodeOffer(envID, nodes, t)
  {
    if nodes != [] {
      var so, last := AddNodes(envID, s, nodes[..|nodes| - 1]), NodeInstance(envID, nodes[|nodes| - 1]);
      NodesAt(envID, s, nodes[..|nodes| - 1], t);
      OfferAt(so.targets, last.key, last.ports, last.tools, t);
    }
  }

  lemma {:induction false} ServicesAt(envID: string, s: State, services: seq<Service>, t: string)
    ensures Lookup(AddServices(envID, s, services).targets, t)
            == if ServiceOffer(envID, services, t).Some? then ServiceOffer(envID, services, t) else Lookup(s.targets, t)
  {
    if services != [] {
      ServicesAt(envID, s, services[..|services| - 1], t);
    }
  }

  /** The targets before the list is read are those of the providers. */
  lemma BaseIsProvided(envID: string, b: Blueprint, t: string)
    ensures Lookup(Base(envID, b).targets, t) == Provider(envID, b, t)
  {
    var noded := AddNodes(envID, Start(envID, b), b.nodes);
    WorkspaceAt(b.workspaceTools, t);
    NodesAt(envID, Start(envID, b), b.nodes, t);
    ServicesAt(envID, noded, b.services, t);
  }

  // ---- The list of extra tools ----------------------------------------------------------------

  predicate Names(s: State, key: string) { IndexOf(s.instances, key).Some? }

  /** The entry has a port to offer; decided on the ports before any entry is read. */
  predicate Offers(base: State, tool: Tool) {
    tool.target != "" && PortFor(tool.key, PortsOf(base.instances, tool.target)) > 0
  }

  /** The first entry that offers a tool nothing else offered. */
  ghost predicate Decides(base: State, tools: seq<Tool>, i: nat)
    requires i < |tools|
  {
    && tools[i].key !in base.targets && Offers(base, tools[i])
    && forall j | 0 <= j < i && Offers(base, tools[j]) :: tools[j].key != tools[i].key
  }

  /** An edited instance keeps its ports, or gets its first one. */
  ghost predicate Extends(was: Instance, now: Instance) {
    && now == was.(ports := now.ports, tools := now.tools)
    && (was.ports != [] ==> now.ports == was.ports)
    && (now.ports != [] ==> now.ports == was.ports || now.ports[0] > 0)
  }

  ghost predicate Edited(base: seq<Instance>, now: seq<Instance>) {
    |now| == |base| && forall i | 0 <= i < |base| :: Extends(base[i], now[i])
  }

  lemma EditedLookup(base: seq<Instance>, now: seq<Instance>, key: string)
    requires Edited(base, now)
    ensures IndexOf(now, key) == IndexOf(base, key)
  {
    assert forall i | 0 <= i < |base| :: now[i].key == base[i].key by {
      assert forall i | 0 <= i < |base| :: Extends(base[i], now[i]);
    }
    if IndexOf(base, key).Some? {
      assert now[IndexOf(base, key).value].key == key;
    }
  }

  lemma EditedOffers(base: State, now: State, tool: Tool)
    requires Edited(base.instances, now.instances)
    ensures Offers(base, tool) <==> Offers(now, tool)
  {
    EditedLookup(base.instances, now.instances, tool.target);
    match IndexOf(base.instances, tool.target)
    case Some(i) => assert Extends(base.instances[i], now.instances[i]);
    case None =>
  }

  lemma AddToolEdits(base: seq<Instance>, s: State, tool: Tool)
    requires Edited(base, s.instances)
    ensures Edited(base, AddTool(s, tool).instances)
  {
    var now := AddTool(s, tool).instances;
    forall i | 0 <= i < |base| ensures Extends(base[i], now[i]) {
      assert Extends(base[i], s.instances[i]);
    }
  }

  lemma AddToolReaches(s: State, tool: Tool, ref: Ref)
    requires Reaches(s.instances, ref)
    ensures Reaches(AddTool(s, tool).instances, ref)
  {
    var now := AddTool(s, tool).instances;
    var i :| 0 <= i < |s.instances| && s.instances[i].key == ref.instance && ref.port in s.instances[i].ports;
    assert now[i].key == ref.instance && ref.port in now[i].ports;
  }

  lemma AddedToolReaches(s: State, tool: Tool)
    requires tool.key !in s.targets && Offers(s, tool) && Names(s, tool.target)
    ensures Reaches(AddTool(s, tool).instances, AddTool(s, tool).targets[tool.key])
  {
    var now, i := AddTool(s, tool), IndexOf(s.instances, tool.target).value;
    assert now.instances[i].key == tool.target && now.targets[tool.key].port in now.instances[i].ports;
  }

  lemma {:induction false} FirstDecides(base: State, tools: seq<Tool>, j: nat)
    requires j < |tools| && Offers(base, tools[j]) && tools[j].key !in base.targets
    ensures exists i | 0 <= i <= j :: Decides(base, tools, i) && tools[i].key == tools[j].key
    decreases j
  {
    if !Decides(base, tools, j) {
      var k :| 0 <= k < j && Offers(base, tools[k]) && tools[k].key == tools[j].key;
      FirstDecides(base, tools, k);
    }
  }

  /** Where the target of a tool came from, once the first `n` entries are read. */
  ghost predicate FromEntry(base: State, tools: seq<Tool>, n: nat, s: State, t: string)
    requires n <= |tools| && t in s.targets
  {
    exists i | 0 <= i < n :: SetBy(base, tools, i, s, t)
  }

  ghost predicate SetBy(base: State, tools: seq<Tool>, i: nat, s: State, t: string)
    requires i < |tools| && t in s.targets
  {
    && Decides(base, tools, i) && tools[i].key == t && s.targets[t].instance == tools[i].target
    && (Names(base, tools[i].target) ==> Reaches(s.instances, s.targets[t]))
  }

  ghost predicate FromBase(base: State, s: State, t: string)
    requires t in s.targets
  {
    t in base.targets && s.targets[t] == base.targets[t] && Reaches(s.instances, s.targets[t])
  }

  ghost predicate Settled(base: State, tools: seq<Tool>, n: nat, s: State)
    requires n <= |tools|
  {
    && Edited(base.instances, s.instances)
    && (forall t | t in base.targets :: t in s.targets && FromBase(base, s, t))
    && (forall t | t in s.targets && t !in base.targets :: FromEntry(base, tools, n, s, t))
    && (forall i | 0 <= i < n && Decides(base, tools, i) :: tools[i].key in s.targets)
  }

  lemma TakenIffDecides(base: State, tools: seq<Tool>, n: nat, s: State)
    requires n < |tools| && Settled(base, tools, n, s)
    ensures Decides(base, tools, n) <==> tools[n].key !in s.targets && Offers(s, tools[n])
  {
    var tool := tools[n];
    EditedOffers(base, s, tool);
    if tool.key !in s.targets && Offers(s, tool) {
      FirstDecides(base, tools, n);
    }
  }

  lemma EntryKept(base: State, tools: seq<Tool>, n: nat, s: State, t: string)
    requires n < |tools| && t in s.targets && FromEntry(base, tools, n, s, t)
    ensures t in AddTool(s, tools[n]).targets && FromEntry(base, tools, n + 1, AddTool(s, tools[n]), t)
  {
    var v := AddTool(s, tools[n]);
    var i :| 0 <= i < n && SetBy(base, tools, i, s, t);
    assert v.targets[t] == s.targets[t];
    if Names(base, tools[i].target) {
      AddToolReaches(s, tools[n], s.targets[t]);
    }
    assert SetBy(base, tools, i, v, t);
  }

  lemma EntryAdded(base: State, tools: seq<Tool>, n: nat, s: State)
    requires n < |tools| && Settled(base, tools, n, s) && Decides(base, tools, n)
    ensures (var v := AddTool(s, tools[n]);
             tools[n].key in v.targets && FromEntry(base, tools, n + 1, v, tools[n].key))
  {
    var tool, v := tools[n], AddTool(s, tools[n]);
    TakenIffDecides(base, tools, n, s);
    EditedLookup(base.instances, s.instances, tool.target);
    if Names(base, tool.target) {
      AddedToolReaches(s, tool);
    }
    assert SetBy(base, tools, n, v, tool.key);
  }

  /** An entry leaves the targets it finds and adds at most its own. */
  lemma AddToolTargets(s: State, tool: Tool)
    ensures var v := AddTool(s, tool);
            && (forall t | t in s.targets :: t in v.targets && v.targets[t] == s.targets[t])
            && (forall t | t in v.targets && t !in s.targets :: t == tool.key && Offers(s, tool))
  {
  }

  lemma BaseKept(base: State, s: State, tool: Tool, t: string)
    requires t in s.targets && FromBase(base, s, t)
    ensures t in AddTool(s, tool).targets && FromBase(base, AddTool(s, tool), t)
  {
    AddToolReaches(s, tool, s.targets[t]);
  }

  lemma StepSettles(base: State, tools: seq<Tool>, n: nat, s: State)
    requires n < |tools| && Settled(base, tools, n, s)
    ensures Settled(base, tools, n + 1, AddTool(s, tools[n]))
  {
    hide AddTool, Edited, Reaches, FromBase, FromEntry, Offers, Decides;
    var tool, v := tools[n], AddTool(s, tools[n]);
    TakenIffDecides(base, tools, n, s);
    AddToolEdits(base.instances, s, tool);
    AddToolTargets(s, tool);
    if Decides(base, tools, n) {
      EntryAdded(base, tools, n, s);
    }
    forall t | t in base.targets ensures t in v.targets && FromBase(base, v, t) {
      BaseKept(base, s, tool, t);
    }
    forall t | t in v.targets && t !in base.targets ensures FromEntry(base, tools, n + 1, v, t) {
      if t in s.targets {
        EntryKept(base, tools, n, s, t);
      } else {
        EntryAdded(base, tools, n, s);
      }
    }
  }

  lemma {:induction false} ToolsSettle(base: State, tools: seq<Tool>, n: nat)
    requires n <= |tools| && Sound(base)
    ensures Settled(base, tools, n, AddTools(base, tools[..n]))
  {
    if n == 0 {
      assert forall t | t in base.targets :: FromBase(base, base, t);
      assert AddTools(base, tools[..0]) == base;
    } else {
      ToolsSettle(base, tools, n - 1);
      assert tools[..n][..n - 1] == tools[..n - 1];
      StepSettles(base, tools, n - 1, AddTools(base, tools[..n - 1]));
    }
  }

  /** Each deciding entry names an instance of the blueprint. */
  ghost predicate NoneDangles(envID: string, b: Blueprint) {
    var base := Base(envID, b);
    forall i | 0 <= i < |b.tools| && Decides(base, b.tools, i) :: Names(base, b.tools[i].target)
  }

  /** Every tool target of a compiled blueprint names an instance that lists its port, through
      all later edits, exactly when no deciding entry of the tool list dangles. */
  lemma SoundIff(envID: string, b: Blueprint)
    ensures Sound(Compile(envID, b)) <==> NoneDangles(envID, b)
  {
    var base, s := Base(envID, b), Compile(envID, b);
    BaseIsSound(envID, b);
    ToolsSettle(base, b.tools, |b.tools|);
    assert b.tools[..|b.tools|] == b.tools;
    if NoneDangles(envID, b) {
      forall t | t in s.targets ensures Reaches(s.instances, s.targets[t]) {
        if t in base.targets {
          assert FromBase(base, s, t);
        } else {
          assert FromEntry(base, b.tools, |b.tools|, s, t);
        }
      }
    }
    if Sound(s) {
      forall i | 0 <= i < |b.tools| && Decides(base, b.tools, i) ensures Names(base, b.tools[i].target) {
        var t := b.tools[i].key;
        assert FromEntry(base, b.tools, |b.tools|, s, t);
        var j :| 0 <= j < |b.tools| && SetBy(base, b.tools, j, s, t);
        DecidersDiffer(base, b.tools, i, j);
        ReachedIsNamed(base.instances, s.instances, s.targets[t]);
      }
    }
  }

  lemma DecidersDiffer(base: State, tools: seq<Tool>, i: nat, j: nat)
    requires i < |tools| && j < |tools| && Decides(base, tools, i) && Decides(base, tools, j)
    requires tools[i].key == tools[j].key
    ensures i == j
  {
  }

  lemma ReachedIsNamed(base: seq<Instance>, now: seq<Instance>, ref: Ref)
    requires Edited(base, now) && Reaches(now, ref)
    ensures IndexOf(base, ref.instance).Some?
  {
    var i :| 0 <= i < |now| && now[i].key == ref.instance && ref.port in now[i].ports;
    assert Extends(base[i], now[i]);
    assert base[i].key == ref.instance;
  }

  /** Which tools have a target: what was provided before stays, and the first offering entry of
      the list decides the rest. */
  lemma TargetsAreDecided(envID: string, b: Blueprint, t: string)
    ensures t in Compile(envID, b).targets <==>
      || t in Base(envID, b).targets
      || exists i | 0 <= i < |b.tools| :: Offers(Base(envID, b), b.tools[i]) && b.tools[i].key == t
    ensures t in Base(envID, b).targets ==> Compile(envID, b).targets[t] == Base(envID, b).targets[t]
    ensures forall i | 0 <= i < |b.tools| && Decides(Base(envID, b), b.tools, i) ::
      && b.tools[i].key in Compile(envID, b).targets
      && Compile(envID, b).targets[b.tools[i].key].instance == b.tools[i].target
  {
    var base, s := Base(envID, b), Compile(envID, b);
    BaseIsSound(envID, b);
    ToolsSettle(base, b.tools, |b.tools|);
    assert b.tools[..|b.tools|] == b.tools;
    if t in base.targets {
      assert FromBase(base, s, t);
    } else if t in s.targets {
      assert FromEntry(base, b.tools, |b.tools|, s, t);
      var i :| 0 <= i < |b.tools| && SetBy(base, b.tools, i, s, t);
      assert Offers(base, b.tools[i]) && b.tools[i].key == t;
    } else if j :| 0 <= j < |b.tools| && Offers(base, b.tools[j]) && b.tools[j].key == t {
      FirstDecides(base, b.tools, j);
    }
    forall i | 0 <= i < |b.tools| && Decides(base, b.tools, i)
      ensures b.tools[i].key in s.targets && s.targets[b.tools[i].key].instance == b.tools[i].target
    {
      assert FromEntry(base, b.tools, |b.tools|, s, b.tools[i].key);
      var j :| 0 <= j < |b.tools| && SetBy(base, b.tools, j, s, b.tools[i].key);
      DecidersDiffer(base, b.tools, i, j);
    }
  }

  /** With distinct instance keys and no deciding entry that dangles, the instance a target
      resolves to is the one that lists its port. */
  lemma TargetsResolve(envID: string, b: Blueprint, t: string)
    requires forall i, j | 0 <= i < j < |Base(envID, b).instances| ::
               Base(envID, b).instances[i].key != Base(envID, b).instances[j].key
    requires NoneDangles(envID, b)
    requires t in Compile(envID, b).targets
    ensures (var s := Compile(envID, b);
             && IndexOf(s.instances, s.targets[t].instance).Some?
             && s.targets[t].port in PortsOf(s.instances, s.targets[t].instance))
  {
    var base, s := Base(envID, b), Compile(envID, b);
    SoundIff(envID, b);
    CompiledExtends(envID, b);
    FirstIsTheOne(base.instances, s.instances, s.targets[t]);
  }

  lemma FirstIsTheOne(base: seq<Instance>, now: seq<Instance>, ref: Ref)
    requires Edited(base, now) && Reaches(now, ref)
    requires forall i, j | 0 <= i < j < |base| :: base[i].key != base[j].key
    ensures IndexOf(now, ref.instance).Some? && ref.port in PortsOf(now, ref.instance)
  {
    var i :| 0 <= i < |now| && now[i].key == ref.instance && ref.port in now[i].ports;
    ReachedIsNamed(base, now, ref);
    EditedLookup(base, now, ref.instance);
    var j := IndexOf(now, ref.instance).value;
    assert Extends(base[i], now[i]) && Extends(base[j], now[j]);
    assert base[i].key == base[j].key;
  }

  /** An entry that only dangles: its target is kept although no instance has that name. */
  lemma DanglingTargetIsKept(envID: string, b: Blueprint, i: nat)
    requires i < |b.tools| && Decides(Base(envID, b), b.tools, i) && !Names(Base(envID, b), b.tools[i].target)
    ensures (var s := Compile(envID, b);
             b.tools[i].key in s.targets && !Reaches(s.instances, s.targets[b.tools[i].key]))
  {
    var base, s, t := Base(envID, b), Compile(envID, b), b.tools[i].key;
    TargetsAreDecided(envID, b, t);
    BaseIsSound(envID, b);
    ToolsSettle(base, b.tools, |b.tools|);
    assert b.tools[..|b.tools|] == b.tools;
    if Reaches(s.instances, s.targets[t]) {
      ReachedIsNamed(base.instances, s.instances, s.targets[t]);
    }
  }

  // ---- Instances and their pods -------------------------------------------------------------------

  function NodeInstances(envID: string, nodes: seq<Node>): seq<Instance> {
    if nodes == [] then [] else NodeInstances(envID, nodes[..|nodes| - 1]) + [NodeInstance(envID, nodes[|nodes| - 1])]
  }

  function AllServiceInstances(envID: string, services: seq<Service>): seq<Instance> {
    if services == [] then []
    else AllServiceInstances(envID, services[..|services| - 1]) + ServiceInstances(envID, services[|services| - 1])
  }

  lemma {:induction false} NodesListed(envID: string, s: State, nodes: seq<Node>)
    ensures AddNodes(envID, s, nodes).instances == s.instances + NodeInstances(envID, nodes)
  {
    if nodes != [] {
      NodesListed(envID, s, nodes[..|nodes| - 1]);
    }
  }

  lemma {:induction false} ServicesListed(envID: string, s: State, services: seq<Service>)
    ensures AddServices(envID, s, services).instances == s.instances + AllServiceInstances(envID, services)
  {
    if services != [] {
      ServicesListed(envID, s, services[..|services| - 1]);
    }
  }

  /** The instances: workspace, nodes, services with their companions, and the simulation when
      something uses it and nothing but the workspace offers it. Later edits only touch ports
      and tools. */
  lemma InstancesListed(envID: string, b: Blueprint)
    ensures (var offered := AddServices(envID, AddNodes(envID, Start(envID, b), b.nodes), b.services).targets;
             var listed := [WorkspaceInstance(envID, b)] + NodeInstances(envID, b.nodes)
                           + AllServiceInstances(envID, b.services)
                           + (if NeedsSimulation(b, offered) then [Simulation(envID)] else []);
             Base(envID, b).instances == listed && Edited(listed, Compile(envID, b).instances))
    ensures Compile(envID, b).instances != [] && Compile(envID, b).instances[0].key == WORKSPACE
  {
    NodesListed(envID, Start(envID, b), b.nodes);
    ServicesListed(envID, AddNodes(envID, Start(envID, b), b.nodes), b.services);
    CompiledExtends(envID, b);
    assert Extends(Base(envID, b).instances[0], Compile(envID, b).instances[0]);
  }

  lemma {:induction false} NodeKinds(envID: string, nodes: seq<Node>)
    ensures forall i | i in NodeInstances(envID, nodes) :: i.kind == NodeKind && exists n | n in nodes :: n.key == i.key
  {
    if nodes != [] {
      var front, last := nodes[..|nodes| - 1], nodes[|nodes| - 1];
      NodeKinds(envID, front);
      assert forall n | n in front :: n in nodes;
      assert last in nodes;
    }
  }

  lemma {:induction false} ServiceKinds(envID: string, services: seq<Service>)
    ensures forall i | i in AllServiceInstances(envID, services) :: i.kind == ServiceKind
  {
    if services != [] {
      ServiceKinds(envID, services[..|services| - 1]);
    }
  }

  lemma KindsOfBase(envID: string, b: Blueprint, i: Instance)
    requires i in Base(envID, b).instances
    ensures i.kind == NodeKind ==> FindNode(b.nodes, i.key).Some?
  {
    InstancesListed(envID, b);
    NodeKinds(envID, b.nodes);
    ServiceKinds(envID, b.services);
    if i in NodeInstances(envID, b.nodes) {
      var n :| n in b.nodes && n.key == i.key;
    }
  }

  ghost predicate HasPod(b: Blueprint, i: Instance) {
    && BuildPodConfig(b, i).Ok?
    && BuildPodConfig(b, i).value.name == i.podName && BuildPodConfig(b, i).value.ports == i.ports
    && (i.kind == NodeKind ==>
          exists n | n in b.nodes :: n.key == i.key && BuildPodConfig(b, i).value.image == Given(n.image))
  }

  lemma FoundNodeHasPod(b: Blueprint, i: Instance)
    requires i.kind == NodeKind ==> FindNode(b.nodes, i.key).Some?
    ensures HasPod(b, i)
  {
  }

  lemma CompiledExtends(envID: string, b: Blueprint)
    ensures Edited(Base(envID, b).instances, Compile(envID, b).instances)
  {
    BaseIsSound(envID, b);
    ToolsSettle(Base(envID, b), b.tools, |b.tools|);
    assert b.tools[..|b.tools|] == b.tools;
  }

  /** Every instance of a compiled blueprint has a pod, under the name and with the ports that
      the runtime state records for it; a node runs the image of a node of its key. */
  lemma EveryInstanceHasAPod(envID: string, b: Blueprint, k: nat)
    requires k < |Compile(envID, b).instances|
    ensures HasPod(b, Compile(envID, b).instances[k])
  {
    var base, now := Base(envID, b).instances, Compile(envID, b).instances;
    CompiledExtends(envID, b);
    assert Extends(base[k], now[k]);
    KindsOfBase(envID, b, base[k]);
    FoundNodeHasPod(b, now[k]);
  }
}
