/** The runtime profile of a challenge and the finished form of its orchestration
    (backend/internal/service/challenge_runtime_policy.go). */
module Orchestration {
  import opened Common

  /** A profile or mode text: one of the four known ones, empty, or anything else. */
  datatype Profile = Static | SingleChain | ForkReplay | MultiService | Unset | Unknown(name: string)

  datatype Port = Port(name: string, port: int, protocol: string, exposeAs: string)

  datatype Service = Service(key: string, image: string, purpose: string, description: string, ports: seq<Port>)

  datatype Topology = NoTopology | WorkspaceOnly | WorkspaceWithServices | OtherTopology(name: string)

  /** The fields the policy reads or writes. */
  datatype Orch = Orch(mode: Profile, needsEnvironment: bool, fork: bool, topology: Topology, entries: seq<string>,
                       tools: seq<string>, services: seq<Service>, timeLimit: int)

  // ---- Defaults -------------------------------------------------------------------------------------

  function DefaultTools(p: Profile): seq<string> {
    match p
    case SingleChain => ["ide", "terminal", "files"]
    case ForkReplay => ["ide", "terminal", "files", "logs"]
    case MultiService => ["ide", "terminal", "files", "logs"]
    case _ => []
  }

  function DefaultEntries(p: Profile): seq<string> {
    match p
    case Static => ["workspace"]
    case SingleChain => ["workspace", "rpc"]
    case ForkReplay => ["workspace", "rpc"]
    case MultiService => ["workspace"]
    case _ => []
  }

  const RPC := "rpc"

  function NodePorts(): seq<Port> { [Port("rpc", 8545, "http", RPC), Port("ws", 8546, "ws", RPC)] }

  /** The catalogue; what the image registry and the texts hold is a parameter. */
  function Catalogue(image: string -> string, text: string -> string, key: string): Option<Service> {
    if key == "chain" then Some(Service(key, image(key), "single_chain_instance", text(key), NodePorts()))
    else if key == "geth" then Some(Service(key, image(key), "node_cluster", text(key), NodePorts()))
    else if key == "chainlink" then
      Some(Service(key, image(key), "oracle", text(key), [Port("api", 6688, "http", "api_debug")]))
    else if key == "thegraph" then
      Some(Service(key, image(key), "indexer", text(key), [Port("graphql", 8000, "http", "api_debug")]))
    else if key == "blockscout" then
      Some(Service(key, image(key), "explorer", text(key), [Port("web", 4000, "http", "explorer")]))
    else None
  }

  function Chain(image: string -> string, text: string -> string): Service {
    Service("chain", image("chain"), "single_chain_instance", text("chain"), NodePorts())
  }

  // ---- The policy --------------------------------------------------------------------------------------

  /** An explicit profile, else the mode, else what the orchestration suggests. */
  function Resolve(profile: Profile, o: Orch): Profile {
    if profile != Unset then profile
    else if o.mode != Unset then o.mode
    else if o.fork then ForkReplay
    else if o.needsEnvironment && |o.services| > 0 then MultiService
    else if !o.needsEnvironment && o.topology == WorkspaceOnly then Static
    else SingleChain
  }

  function Or(s: string, fallback: string): string { if s == "" then fallback else s }

  function NormalizeService(image: string -> string, text: string -> string, s: Service): Service {
    match Catalogue(image, text, s.key)
    case None => s
    case Some(t) =>
      Service(s.key, Or(s.image, t.image), Or(s.purpose, t.purpose), Or(s.description, t.description),
              if s.ports == [] then t.ports else s.ports)
  }

  /** The texts in order, each once, without the empty one. */
  function Dedup(list: seq<string>): seq<string> {
    if list == [] then []
    else
      var so, last := Dedup(list[..|list| - 1]), list[|list| - 1];
      if last == "" || last in so then so else so + [last]
  }

  function Ensure(list: seq<string>, fallback: seq<string>): seq<string> {
    if list == [] then fallback else Dedup(list)
  }

  predicate ExposesRpc(s: Service) { exists i | 0 <= i < |s.ports| :: s.ports[i].exposeAs == RPC }

  predicate HasRpc(services: seq<Service>) { exists i | 0 <= i < |services| :: ExposesRpc(services[i]) }

  function NormalizeAll(image: string -> string, text: string -> string, services: seq<Service>): seq<Service> {
    seq(|services|, i requires 0 <= i < |services| => NormalizeService(image, text, services[i]))
  }

  function EnsureServices(image: string -> string, text: string -> string, p: Profile, services: seq<Service>)
    : seq<Service>
  {
    var all := NormalizeAll(image, text, services);
    if p == SingleChain && !HasRpc(all) then all + [Chain(image, text)] else all
  }

  function OrTopology(t: Topology, fallback: Topology): Topology { if t == NoTopology then fallback else t }

  /** What the profile fixes. */
  function Shape(p: Profile, o: Orch): Orch {
    match p
    case Static =>
      o.(mode := Static, needsEnvironment := false, fork := false, topology := WorkspaceOnly,
         entries := DefaultEntries(Static), tools := [])
    case ForkReplay => o.(mode := ForkReplay, needsEnvironment := true, fork := true,
                          topology := OrTopology(o.topology, WorkspaceWithServices))
    case MultiService => o.(mode := MultiService, needsEnvironment := true,
                            topology := OrTopology(o.topology, WorkspaceWithServices))
    case _ => o.(mode := SingleChain, needsEnvironment := true, fork := false,
                 topology := OrTopology(o.topology, WorkspaceOnly))
  }

  function Finalize(image: string -> string, text: string -> string, p: Profile, o: Orch): Orch {
    var s := Shape(p, o);
    s.(timeLimit := if s.timeLimit <= 0 then 120 else s.timeLimit,
       tools := if s.needsEnvironment then Ensure(s.tools, DefaultTools(p)) else [],
       entries := Ensure(s.entries, DefaultEntries(p)),
       services := EnsureServices(image, text, p, s.services))
  }

  // ---- The loops -----------------------------------------------------------------------------------------

  method EnsureList(list: seq<string>, fallback: seq<string>) returns (result: seq<string>)
    ensures result == Ensure(list, fallback)
  {
    if |list| == 0 {
      return fallback;
    }
    var seen: set<string> := {};
    result := [];
    for i := 0 to |list|
      invariant result == Dedup(list[..i])
      invariant forall x :: x in seen <==> x in result
    {
      assert list[..i + 1][..i] == list[..i];
      if list[i] == "" || list[i] in seen {
        continue;
      }
      seen := seen + {list[i]};
      result := result + [list[i]];
    }
    assert list[..|list|] == list;
  }

  method EnsureRuntimeServices(image: string -> string, text: string -> string, p: Profile, services: seq<Service>)
      returns (result: seq<Service>)
    ensures result == EnsureServices(image, text, p, services)
  {
    result := [];
    var hasRpc := false;
    ghost var all := NormalizeAll(image, text, services);
    for i := 0 to |services|
      invariant result == all[..i]
      invariant hasRpc <==> HasRpc(all[..i])
    {
      var normalized := NormalizeService(image, text, services[i]);
      var exposes := false;
      for j := 0 to |normalized.ports|
        invariant !exposes && forall k | 0 <= k < j :: normalized.ports[k].exposeAs != RPC
      {
        if normalized.ports[j].exposeAs == RPC {
          exposes := true;
          break;
        }
      }
      assert exposes <==> ExposesRpc(normalized);
      OneMoreService(all, i);
      hasRpc := hasRpc || exposes;
      result := result + [normalized];
    }
    assert all[..|services|] == all;
    if p == SingleChain && !hasRpc {
      result := result + [Chain(image, text)];
    }
  }

  lemma OneMoreService(all: seq<Service>, i: nat)
    requires i < |all|
    ensures HasRpc(all[..i + 1]) <==> HasRpc(all[..i]) || ExposesRpc(all[i])
  {
    var some, more := all[..i], all[..i + 1];
    assert more[i] == all[i];
    if k :| 0 <= k < i && ExposesRpc(some[k]) {
      assert more[k] == some[k];
    }
    if k :| 0 <= k < i + 1 && ExposesRpc(more[k]) {
      assert k < i ==> some[k] == more[k];
    }
  }

  method FinalizeOrchestration(image: string -> string, text: string -> string, p: Profile, o: Orch) returns (r: Orch)
    ensures r == Finalize(image, text, p, o)
  {
    r := o;
    match p {
      case Static =>
        r := r.(mode := Static, needsEnvironment := false, fork := false, topology := WorkspaceOnly);
        r := r.(entries := DefaultEntries(Static), tools := []);
      case ForkReplay =>
        r := r.(mode := ForkReplay, needsEnvironment := true, fork := true);
        if r.topology == NoTopology {
          r := r.(topology := WorkspaceWithServices);
        }
      case MultiService =>
        r := r.(mode := MultiService, needsEnvironment := true);
        if r.topology == NoTopology {
          r := r.(topology := WorkspaceWithServices);
        }
      case _ =>
        r := r.(mode := SingleChain, needsEnvironment := true, fork := false);
        if r.topology == NoTopology {
          r := r.(topology := WorkspaceOnly);
        }
    }
    assert r == Shape(p, o);
    if r.timeLimit <= 0 {
      r := r.(timeLimit := 120);
    }
    var tools: seq<string> := [];
    if r.needsEnvironment {
      tools := EnsureList(r.tools, DefaultTools(p));
    }
    var entries := EnsureList(r.entries, DefaultEntries(p));
    var services := EnsureRuntimeServices(image, text, p, r.services);
    r := r.(tools := tools, entries := entries, services := services);
  }

  // ---- Lists -----------------------------------------------------------------------------------------------

  /** The first position of a text in a list. */
  function First(list: seq<string>, x: string): (i: nat)
    requires x in list
    ensures i < |list| && list[i] == x && x !in list[..i]
  {
    if x in list[..|list| - 1] then First(list[..|list| - 1], x) else |list| - 1
  }

  lemma FirstStays(front: seq<string>, last: string, x: string)
    requires x in front
    ensures First(front + [last], x) == First(front, x)
  {
    assert (front + [last])[..|front|] == front;
  }

  /** Each text once, the empty one never, in the order of first appearance. */
  lemma {:induction false} DedupShape(list: seq<string>)
    ensures Distinct(Dedup(list))
    ensures forall x :: x in Dedup(list) <==> x in list && x != ""
    ensures forall i, j | 0 <= i < j < |Dedup(list)| :: First(list, Dedup(list)[i]) < First(list, Dedup(list)[j])
  {
    if list != [] {
      var front, last := list[..|list| - 1], list[|list| - 1];
      DedupShape(front);
      assert list == front + [last];
      var so, d := Dedup(front), Dedup(list);
      forall i, j | 0 <= i < j < |d| ensures First(list, d[i]) < First(list, d[j]) {
        FirstStays(front, last, d[i]);
        if j < |so| {
          FirstStays(front, last, d[j]);
        }
      }
    }
  }

  lemma {:induction false} DedupKeepsClean(list: seq<string>)
    requires Distinct(list) && "" !in list
    ensures Dedup(list) == list
  {
    if list != [] {
      var front, last := list[..|list| - 1], list[|list| - 1];
      DedupKeepsClean(front);
      assert last in list;
      assert list == front + [last];
    }
  }

  lemma DedupTwice(list: seq<string>)
    ensures Dedup(Dedup(list)) == Dedup(list)
  {
    DedupShape(list);
    DedupKeepsClean(Dedup(list));
  }

  /** The list is empty or holds something besides the empty text. */
  predicate Usable(list: seq<string>) { list == [] || exists i | 0 <= i < |list| :: list[i] != "" }

  /** A list that only holds empty texts is emptied the first time and filled the second. */
  lemma EnsureTwiceIff(list: seq<string>, fallback: seq<string>)
    requires Dedup(fallback) == fallback
    ensures Ensure(Ensure(list, fallback), fallback) == Ensure(list, fallback) <==> Usable(list) || fallback == []
  {
    DedupShape(list);
    DedupTwice(list);
    if list != [] && Usable(list) {
      var i :| 0 <= i < |list| && list[i] != "";
      assert list[i] in Dedup(list);
    }
    if !Usable(list) {
      EmptyTextsVanish(list);
    }
  }

  lemma {:induction false} EmptyTextsVanish(list: seq<string>)
    requires forall i | 0 <= i < |list| :: list[i] == ""
    ensures Dedup(list) == []
  {
    if list != [] {
      EmptyTextsVanish(list[..|list| - 1]);
    }
  }

  // ---- Services ----------------------------------------------------------------------------------------------

  lemma NormalizeTwice(image: string -> string, text: string -> string, s: Service)
    ensures NormalizeService(image, text, NormalizeService(image, text, s)) == NormalizeService(image, text, s)
  {
  }

  lemma ChainExposesRpc(image: string -> string, text: string -> string)
    ensures ExposesRpc(Chain(image, text)) && NormalizeService(image, text, Chain(image, text)) == Chain(image, text)
  {
    assert Chain(image, text).ports[0].exposeAs == RPC;
  }

  lemma ServicesTwice(image: string -> string, text: string -> string, p: Profile, services: seq<Service>)
    ensures EnsureServices(image, text, p, EnsureServices(image, text, p, services))
            == EnsureServices(image, text, p, services)
    ensures p == SingleChain ==> HasRpc(EnsureServices(image, text, p, services))
  {
    var once := EnsureServices(image, text, p, services);
    ChainExposesRpc(image, text);
    forall i | 0 <= i < |services| ensures NormalizeService(image, text, once[i]) == once[i] {
      NormalizeTwice(image, text, services[i]);
    }
    assert NormalizeAll(image, text, once) == once;
    if p == SingleChain && !HasRpc(NormalizeAll(image, text, services)) {
      assert ExposesRpc(once[|services|]);
    }
  }

  // ---- Fixpoints -----------------------------------------------------------------------------------------------

  predicate Known(p: Profile) { p.Static? || p.SingleChain? || p.ForkReplay? || p.MultiService? }

  lemma DefaultsAreClean(p: Profile)
    ensures Dedup(DefaultTools(p)) == DefaultTools(p) && Dedup(DefaultEntries(p)) == DefaultEntries(p)
    ensures Known(p) <==> DefaultEntries(p) != []
    ensures DefaultTools(p) != [] <==> Known(p) && p != Static
  {
    DedupKeepsClean(DefaultTools(p));
    DedupKeepsClean(DefaultEntries(p));
  }

  lemma ShapeTwice(image: string -> string, text: string -> string, p: Profile, o: Orch)
    ensures (var f := Finalize(image, text, p, o);
             Shape(p, f) == f.(entries := if p == Static then DefaultEntries(Static) else f.entries))
  {
  }

  /** Finalising again changes nothing, for every profile, exactly when the profile is static or
      unknown, or tools and entries are each empty or hold something. */
  lemma FinalizeTwiceIff(image: string -> string, text: string -> string, p: Profile, o: Orch)
    ensures (var f := Finalize(image, text, p, o);
             Finalize(image, text, p, f) == f <==> p == Static || !Known(p) || (Usable(o.tools) && Usable(o.entries)))
  {
    var f := Finalize(image, text, p, o);
    DefaultsAreClean(p);
    ShapeTwice(image, text, p, o);
    ServicesTwice(image, text, p, o.services);
    EnsureTwiceIff(o.tools, DefaultTools(p));
    EnsureTwiceIff(o.entries, DefaultEntries(p));
    if p == Static {
      EnsureTwiceIff(DefaultEntries(Static), DefaultEntries(Static));
    }
  }

  /** A finished orchestration tells its profile, exactly when the profile is a known one. */
  lemma ResolveIsInverseIff(image: string -> string, text: string -> string, p: Profile, o: Orch)
    ensures Resolve(Unset, Finalize(image, text, p, o)) == p <==> Known(p)
  {
  }

  /** Saving a finished challenge again, its profile left out, changes nothing. */
  lemma SavedAgain(image: string -> string, text: string -> string, p: Profile, o: Orch)
    requires Known(p) && Usable(o.tools) && Usable(o.entries)
    ensures (var f := Finalize(image, text, p, o);
             Finalize(image, text, Resolve(Unset, f), f) == f)
  {
    ResolveIsInverseIff(image, text, p, o);
    FinalizeTwiceIff(image, text, p, o);
  }

  /** A single-chain challenge always has a service that exposes rpc; the catalogue's chain is
      only added behind the given services, and only when none of them does. */
  lemma SingleChainHasRpc(image: string -> string, text: string -> string, o: Orch)
    ensures (var services := Finalize(image, text, SingleChain, o).services;
             && HasRpc(services)
             && |o.services| <= |services| <= |o.services| + 1
             && (forall i | 0 <= i < |o.services| :: services[i] == NormalizeService(image, text, o.services[i]))
             && (|services| > |o.services| <==> !HasRpc(services[..|o.services|])))
  {
    ServicesTwice(image, text, SingleChain, o.services);
    var services := Finalize(image, text, SingleChain, o).services;
    assert services[..|o.services|] == NormalizeAll(image, text, o.services);
  }
}
