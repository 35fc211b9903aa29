/** What a finished orchestration holds, written out for each profile, and how its services are
    completed (backend/internal/service/challenge_runtime_policy.go). */
module OrchestrationOutcomes {
  import opened Common
  import opened Orchestration

  // ---- The profile ------------------------------------------------------------------------------

  /** An explicit profile counts first, then the mode of the orchestration; without either, one that
      forks is a replay, one with an environment and services has many, one that needs no environment
      and has a workspace alone is static, and any other has a single chain. */
  lemma ProfileResolved(p: Profile, o: Orch)
    ensures p != Unset ==> Resolve(p, o) == p
    ensures p == Unset && o.mode != Unset ==> Resolve(p, o) == o.mode
    ensures p == Unset && o.mode == Unset ==>
              && (Resolve(p, o) == ForkReplay <==> o.fork)
              && (Resolve(p, o) == MultiService <==> !o.fork && o.needsEnvironment && o.services != [])
              && (Resolve(p, o) == Static <==> !o.fork && !o.needsEnvironment && o.topology == WorkspaceOnly)
              && Resolve(p, o) in {ForkReplay, MultiService, Static, SingleChain}
  {
  }

  // ---- The fields -------------------------------------------------------------------------------

  /** A list as it is stored: each text once in its order, or a default in place of an empty list. */
  ghost predicate Stored(list: seq<string>, default: seq<string>, stored: seq<string>) {
    if list == [] then stored == default
    else
      && Distinct(stored) && (forall x :: x in stored <==> x in list && x != "")
      && forall i, j | 0 <= i < j < |stored| ::
           exists k | 0 <= k < |list| :: list[k] == stored[i] && stored[j] !in list[..k + 1]
  }

  lemma EnsureStores(list: seq<string>, default: seq<string>)
    ensures Stored(list, default, Ensure(list, default))
  {
    var stored := Dedup(list);
    DedupShape(list);
    if list != [] {
      forall i, j | 0 <= i < j < |stored|
        ensures exists k | 0 <= k < |list| :: list[k] == stored[i] && stored[j] !in list[..k + 1]
      {
        var k := First(list, stored[i]);
        assert k < First(list, stored[j]);
        assert stored[j] !in list[..First(list, stored[j])];
        assert forall x | x in list[..k + 1] :: x in list[..First(list, stored[j])];
      }
    }
  }

  ghost function Limit(o: Orch): int { if o.timeLimit > 0 then o.timeLimit else 120 }

  ghost function TopologyOr(o: Orch, fallback: Topology): Topology {
    if o.topology == NoTopology then fallback else o.topology
  }

  /** What a profile makes of an orchestration, but for the services: the mode, whether it has an
      environment and a fork, the topology, the tools and the entries of empty lists. */
  ghost predicate Finished(o: Orch, r: Orch, mode: Profile, env: bool, fork: bool, topology: Topology,
                           tools: seq<string>, entries: seq<string>)
  {
    && r.mode == mode && r.needsEnvironment == env && r.fork == fork && r.topology == topology
    && r.timeLimit == Limit(o)
    && (if env then Stored(o.tools, tools, r.tools) else r.tools == [])
    && Stored(if mode == Static then ["workspace"] else o.entries, entries, r.entries)
  }

  lemma FinishedOf(image: string -> string, text: string -> string, p: Profile, o: Orch)
    ensures var r := Finalize(image, text, p, o);
            match p
            case Static => Finished(o, r, Static, false, false, WorkspaceOnly, [], ["workspace"])
            case ForkReplay =>
              Finished(o, r, ForkReplay, true, true, TopologyOr(o, WorkspaceWithServices),
                       ["ide", "terminal", "files", "logs"], ["workspace", "rpc"])
            case MultiService =>
              Finished(o, r, MultiService, true, o.fork, TopologyOr(o, WorkspaceWithServices),
                       ["ide", "terminal", "files", "logs"], ["workspace"])
            case SingleChain =>
              Finished(o, r, SingleChain, true, false, TopologyOr(o, WorkspaceOnly),
                       ["ide", "terminal", "files"], ["workspace", "rpc"])
            case _ => Finished(o, r, SingleChain, true, false, TopologyOr(o, WorkspaceOnly), [], [])
  {
    hide Stored, Ensure, EnsureServices;
    EnsureStores(o.tools, DefaultTools(p));
    EnsureStores(o.entries, DefaultEntries(p));
    EnsureStores(["workspace"], ["workspace"]);
    match p
    case Static =>
    case ForkReplay =>
    case MultiService =>
    case SingleChain =>
    case _ =>
  }

  // ---- The services -----------------------------------------------------------------------------

  const PURPOSES: map<string, string> :=
    map["chain" := "single_chain_instance", "geth" := "node_cluster", "chainlink" := "oracle", "thegraph" := "indexer",
        "blockscout" := "explorer"]

  /** The ports that a service of the catalogue has. */
  ghost function Listens(key: string): seq<Port> {
    if key == "chainlink" then [Port("api", 6688, "http", "api_debug")]
    else if key == "thegraph" then [Port("graphql", 8000, "http", "api_debug")]
    else if key == "blockscout" then [Port("web", 4000, "http", "explorer")]
    else [Port("rpc", 8545, "http", "rpc"), Port("ws", 8546, "ws", "rpc")]
  }

  /** `r` is `s` with what it leaves open filled in from the catalogue. */
  ghost predicate Completed(image: string -> string, text: string -> string, s: Service, r: Service) {
    if s.key !in PURPOSES then r == s
    else
      && r.key == s.key
      && r.image == (if s.image == "" then image(s.key) else s.image)
      && r.purpose == (if s.purpose == "" then PURPOSES[s.key] else s.purpose)
      && r.description == (if s.description == "" then text(s.key) else s.description)
      && r.ports == (if s.ports == [] then Listens(s.key) else s.ports)
  }

  lemma NormalizedIsCompleted(image: string -> string, text: string -> string, s: Service)
    ensures Completed(image, text, s, NormalizeService(image, text, s))
  {
  }

  ghost predicate HasRpcPort(s: Service) { exists port <- s.ports :: port.exposeAs == "rpc" }

  /** Every service is completed in its place; a single chain whose services expose no rpc gets a
      chain behind them. */
  lemma ServicesCompleted(image: string -> string, text: string -> string, p: Profile, services: seq<Service>)
    ensures var r := EnsureServices(image, text, p, services);
            && |services| <= |r|
            && (forall i | 0 <= i < |services| :: Completed(image, text, services[i], r[i]))
            && if p == SingleChain && forall i | 0 <= i < |services| :: !HasRpcPort(r[i]) then
                 && |r| == |services| + 1
                 && r[|services|] == Service("chain", image("chain"), "single_chain_instance", text("chain"),
                                             Listens("chain"))
               else |r| == |services|
  {
    var all := NormalizeAll(image, text, services);
    forall i | 0 <= i < |services| ensures Completed(image, text, services[i], all[i]) {
      NormalizedIsCompleted(image, text, services[i]);
    }
    hide Completed, NormalizeService;
    assert forall i | 0 <= i < |all| :: HasRpcPort(all[i]) <==> ExposesRpc(all[i]);
  }
}
