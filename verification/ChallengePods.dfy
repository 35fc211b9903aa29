/** The pods that belong to one challenge environment: which components its services expand to
    and how they are named (backend/internal/service/challenge_runtime_bundle.go and
    challenge_env_service.go). */
module ChallengePods {
  import opened Common

  /** What provisioning needs of a challenge's orchestration: its service keys in order, whether
      a chain fork is wanted, and the time limit in minutes. */
  datatype Orchestration = Orchestration(services: seq<string>, fork: bool, timeLimit: int)

  datatype Bundle = Bundle(primaryKey: string, components: seq<string>)

  // ---- Names --------------------------------------------------------------------------------

  function SanitizeChar(c: char): char {
    if 'a' <= c <= 'z' || '0' <= c <= '9' then c else '-'
  }

  function Sanitized(s: string): string { seq(|s|, i requires 0 <= i < |s| => SanitizeChar(s[i])) }

  function TrimDashesLeft(s: string): string {
    if s != "" && s[0] == '-' then TrimDashesLeft(s[1..]) else s
  }

  function TrimDashesRight(s: string): string {
    if s != "" && s[|s| - 1] == '-' then TrimDashesRight(s[..|s| - 1]) else s
  }

  function SafeKey(key: string): string {
    var trimmed := TrimDashesRight(TrimDashesLeft(Sanitized(Lower(Trim(key)))));
    if trimmed == "" then "service" else trimmed
  }

  method SanitizeChallengeKey(key: string) returns (safe: string)
    ensures safe == SafeKey(key)
  {
    var text := Lower(Trim(key));
    safe := "";
    for i := 0 to |text|
      invariant safe == Sanitized(text)[..i]
    {
      if 'a' <= text[i] <= 'z' || '0' <= text[i] <= '9' {
        safe := safe + [text[i]];
      } else {
        safe := safe + ['-'];
      }
    }
    assert safe == Sanitized(text);
    safe := TrimDashesRight(TrimDashesLeft(safe));
    if safe == "" {
      safe := "service";
    }
  }

  function ServicePodName(envID: string, key: string): string { envID + "-svc-" + SafeKey(key) }

  function ForkPodName(envID: string): string { "fork-" + envID }

  // ---- Bundles --------------------------------------------------------------------------------

  predicate Skipped(key: string) { key in {"", "anvil_fork", "fork", "fork-node"} }

  function Components(key: string): seq<string> {
    match key
    case "blockscout" | "chainlink" => [key, key + "-db"]
    case "thegraph" => [key, key + "-db", key + "-ipfs"]
    case _ => [key]
  }

  function KeptComponents(key: string): seq<string> { if Skipped(key) then [] else Components(key) }

  /** The pieces of all keys, one after another. */
  function Flat(piece: string -> seq<string>, keys: seq<string>): seq<string> {
    if keys == [] then [] else piece(keys[0]) + Flat(piece, keys[1..])
  }

  lemma {:induction false} FlatAppend(piece: string -> seq<string>, keys: seq<string>, key: string)
    ensures Flat(piece, keys + [key]) == Flat(piece, keys) + piece(key)
  {
    if keys == [] {
      assert keys + [key] == [key];
      assert [key][1..] == keys;
      assert piece(key) + [] == piece(key);
    } else {
      FlatAppend(piece, keys[1..], key);
      assert (keys + [key])[1..] == keys[1..] + [key];
    }
  }

  /** The runtime keys of every component, bundle after bundle. */
  function ComponentKeys(services: seq<string>): seq<string> { Flat(KeptComponents, services) }

  function Flatten(bundles: seq<Bundle>): seq<string> {
    if bundles == [] then [] else bundles[0].components + Flatten(bundles[1..])
  }

  function Names(envID: string, keys: seq<string>): seq<string> {
    seq(|keys|, i requires 0 <= i < |keys| => ServicePodName(envID, keys[i]))
  }

  lemma {:induction false} FlattenLast(bundles: seq<Bundle>, b: Bundle)
    ensures Flatten(bundles + [b]) == Flatten(bundles) + b.components
  {
    if bundles == [] {
      assert Flatten([b]) == b.components + [];
    } else {
      FlattenLast(bundles[1..], b);
      assert (bundles + [b])[1..] == bundles[1..] + [b];
    }
  }

  lemma ComponentKeysLast(services: seq<string>, i: nat)
    requires i < |services|
    ensures ComponentKeys(services[..i + 1]) == ComponentKeys(services[..i]) + KeptComponents(services[i])
  {
    FlatAppend(KeptComponents, services[..i], services[i]);
    assert services[..i + 1] == services[..i] + [services[i]];
  }

  method BuildRuntimeBundles(services: seq<string>) returns (bundles: seq<Bundle>)
    ensures Flatten(bundles) == ComponentKeys(services)
    ensures forall b <- bundles :: b.primaryKey in services && !Skipped(b.primaryKey) && b.primaryKey in b.components
  {
    bundles := [];
    for i := 0 to |services|
      invariant Flatten(bundles) == ComponentKeys(services[..i])
      invariant forall b <- bundles ::
                  b.primaryKey in services && !Skipped(b.primaryKey) && b.primaryKey in b.components
    {
      ComponentKeysLast(services, i);
      var key := services[i];
      if key == "" || key == "anvil_fork" || key == "fork" || key == "fork-node" {
        continue;
      }
      var components := [key];
      if key == "blockscout" || key == "chainlink" {
        components := components + [key + "-db"];
      } else if key == "thegraph" {
        components := components + [key + "-db", key + "-ipfs"];
      }
      assert components == Components(key);
      FlattenLast(bundles, Bundle(key, components));
      bundles := bundles + [Bundle(key, components)];
    }
    assert services[..|services|] == services;
  }

  /** The service pods of an environment, in the order provisioning starts them. */
  function ServicePods(envID: string, orch: Orchestration): seq<string> {
    Names(envID, ComponentKeys(orch.services))
  }

  lemma NamesLast(envID: string, keys: seq<string>, key: string)
    ensures Names(envID, keys + [key]) == Names(envID, keys) + [ServicePodName(envID, key)]
  {}

  /** The loop over the components of one bundle. */
  method AppendPodNames(envID: string, ghost so: seq<string>, components: seq<string>, before: seq<string>)
      returns (configs: seq<string>)
    requires before == Names(envID, so)
    ensures configs == Names(envID, so + components)
  {
    configs := before;
    assert so + components[..0] == so;
    for j := 0 to |components|
      invariant configs == Names(envID, so + components[..j])
    {
      NamesLast(envID, so + components[..j], components[j]);
      assert so + components[..j + 1] == so + components[..j] + [components[j]];
      configs := configs + [ServicePodName(envID, components[j])];
    }
    assert components[..|components|] == components;
  }

  method BuildServicePodConfigs(envID: string, orch: Orchestration) returns (configs: seq<string>)
    ensures configs == ServicePods(envID, orch)
  {
    var bundles := BuildRuntimeBundles(orch.services);
    configs := [];
    for i := 0 to |bundles|
      invariant configs == Names(envID, Flatten(bundles[..i]))
    {
      FlattenLast(bundles[..i], bundles[i]);
      assert bundles[..i + 1] == bundles[..i] + [bundles[i]];
      configs := AppendPodNames(envID, Flatten(bundles[..i]), bundles[i].components, configs);
    }
    assert bundles[..|bundles|] == bundles;
  }

  // ---- Ownership ---------------------------------------------------------------------------------

  /** Everything provisioning can start for an environment. */
  function OwnedPods(envID: string, orch: Orchestration): set<string> {
    {envID} + (set name <- ServicePods(envID, orch)) + (if orch.fork then {ForkPodName(envID)} else {})
  }

  /** The shape of a generated environment id: "jeo-", two numbers and a hexadecimal code. */
  predicate IsEnvID(s: string) { s != "" && s[0] == 'j' && Dashes(s) == 3 }

  /** The environment a pod name belongs to. */
  function OwnerOf(pod: string): string {
    if |pod| >= 5 && pod[0] == 'f' then pod[5..] else Head(pod, 3)
  }

  lemma OwnerOfServicePod(envID: string, key: string)
    requires IsEnvID(envID)
    ensures OwnerOf(ServicePodName(envID, key)) == envID
  {
    var rest := "-svc-" + SafeKey(key);
    HeadOfName(envID, rest);
    assert ServicePodName(envID, key) == envID + rest;
  }

  lemma OwnerOfForkPod(envID: string)
    ensures OwnerOf(ForkPodName(envID)) == envID
  {
    assert ForkPodName(envID)[5..] == envID;
  }

  lemma OwnerOfOwned(envID: string, orch: Orchestration)
    requires IsEnvID(envID)
    ensures forall pod <- OwnedPods(envID, orch) :: OwnerOf(pod) == envID
  {
    forall pod <- OwnedPods(envID, orch) ensures OwnerOf(pod) == envID {
      if pod in ServicePods(envID, orch) {
        var i :| 0 <= i < |ServicePods(envID, orch)| && pod == ServicePods(envID, orch)[i];
        OwnerOfServicePod(envID, ComponentKeys(orch.services)[i]);
      } else {
        OwnerOfForkPod(envID);
        HeadOfName(envID, "");
        assert envID + "" == envID;
      }
    }
  }

  /** Two environments never share a pod name, whatever their service keys. */
  lemma OwnedDisjoint(a: string, orchA: Orchestration, b: string, orchB: Orchestration)
    requires IsEnvID(a) && IsEnvID(b) && a != b
    ensures OwnedPods(a, orchA) !! OwnedPods(b, orchB)
  {
    OwnerOfOwned(a, orchA);
    OwnerOfOwned(b, orchB);
  }

  // ---- Names and components, written out ------------------------------------------------------------

  /** Dashes in place of everything but small letters and digits, and none at either end. */
  ghost predicate IsSafe(text: string, safe: string) {
    if safe == "service" && AllDashes(text) then true
    else
      && safe != "" && safe[0] != '-' && safe[|safe| - 1] != '-'
      && exists from: nat ::
           && from + |safe| <= |text|
           && (forall i | 0 <= i < |safe| :: safe[i] == Dashed(text[from + i]))
           && AllDashes(text[..from]) && AllDashes(text[from + |safe|..])
  }

  ghost function Dashed(c: char): char { if 'a' <= c <= 'z' || '0' <= c <= '9' then c else '-' }

  ghost predicate AllDashes(text: string) { forall i | 0 <= i < |text| :: Dashed(text[i]) == '-' }

  lemma {:induction false} TrimsLeft(s: string) returns (from: nat)
    ensures from <= |s| && TrimDashesLeft(s) == s[from..] && (forall i | 0 <= i < from :: s[i] == '-')
    ensures from < |s| ==> s[from] != '-'
  {
    if s != "" && s[0] == '-' {
      var rest := s[1..];
      var n := TrimsLeft(rest);
      from := n + 1;
      assert rest[n..] == s[from..];
      assert forall i | 0 < i < from :: s[i] == rest[i - 1];
    } else {
      from := 0;
    }
  }

  lemma {:induction false} TrimsRight(s: string) returns (to: nat)
    ensures to <= |s| && TrimDashesRight(s) == s[..to] && (forall i | to <= i < |s| :: s[i] == '-')
    ensures to > 0 ==> s[to - 1] != '-'
  {
    if s != "" && s[|s| - 1] == '-' {
      var front := s[..|s| - 1];
      to := TrimsRight(front);
      assert front[..to] == s[..to];
    } else {
      to := |s|;
    }
  }

  /** `cut` is `s` from `from` to `to`, and only dashes are around it. */
  ghost predicate Cut(s: string, cut: string, from: nat, to: nat) {
    && from <= to <= |s| && cut == s[from..to]
    && (forall i | 0 <= i < from || to <= i < |s| :: s[i] == '-')
    && (cut != "" ==> cut[0] != '-' && cut[|cut| - 1] != '-')
  }

  lemma TrimsBoth(s: string) returns (from: nat, to: nat)
    ensures Cut(s, TrimDashesRight(TrimDashesLeft(s)), from, to)
  {
    hide TrimDashesLeft, TrimDashesRight;
    from := TrimsLeft(s);
    var rest := s[from..];
    var n := TrimsRight(rest);
    to := from + n;
    assert rest[..n] == s[from..to];
    assert forall i | to <= i < |s| :: s[i] == rest[i - from];
  }

  lemma CutIsSafe(text: string, s: string, cut: string, from: nat, to: nat)
    requires |s| == |text| && (forall i | 0 <= i < |text| :: s[i] == Dashed(text[i])) && Cut(s, cut, from, to)
    ensures IsSafe(text, if cut == "" then "service" else cut)
  {
    if cut == "" {
      assert forall i | 0 <= i < |text| :: s[i] == '-';
    } else {
      assert AllDashes(text[..from]) && AllDashes(text[from + |cut|..]);
    }
  }

  /** The key as part of a pod name: in lower case and made safe, or "service" if nothing is left. */
  lemma SafeKeyIsSafe(key: string)
    ensures IsSafe(Lower(Trim(key)), SafeKey(key))
  {
    var text := Lower(Trim(key));
    var from, to := TrimsBoth(Sanitized(text));
    CutIsSafe(text, Sanitized(text), TrimDashesRight(TrimDashesLeft(Sanitized(text))), from, to);
  }

  /** The components of a service key: none for a key that is left out, else the key itself and the
      stores that three of them bring. */
  lemma ComponentsOf(key: string)
    ensures KeptComponents(key)
         == if key == "" || key == "anvil_fork" || key == "fork" || key == "fork-node" then []
            else if key == "thegraph" then ["thegraph", "thegraph-db", "thegraph-ipfs"]
            else if key == "blockscout" then ["blockscout", "blockscout-db"]
            else if key == "chainlink" then ["chainlink", "chainlink-db"] else [key]
  {
    assert "thegraph" + "-db" == "thegraph-db" && "thegraph" + "-ipfs" == "thegraph-ipfs";
    assert "blockscout" + "-db" == "blockscout-db" && "chainlink" + "-db" == "chainlink-db";
  }

  /** The service pods in order: those of the first services, then one per component of the last. */
  lemma ServicePodsGrow(envID: string, orch: Orchestration, key: string)
    ensures var more := orch.(services := orch.services + [key]);
            var so, components := ServicePods(envID, orch), KeptComponents(key);
            && |ServicePods(envID, more)| == |so| + |components| && ServicePods(envID, more)[..|so|] == so
            && forall k | 0 <= k < |components| ::
                 ServicePods(envID, more)[|so| + k] == envID + "-svc-" + SafeKey(components[k])
  {
    FlatAppend(KeptComponents, orch.services, key);
  }
}
