/** Looking up verified contract source on Etherscan
    (backend/internal/service/challenge_vulnerability_service.go).

    A contract without source may point to an implementation and to a similar match; the lookup
    follows both, depth first, sharing one visited set between all branches.  HTTP is a fixed,
    finite table of answers: an address outside it is a request that fails. */
module SourceLookup {
  import opened Common

  /** One file of a multi-file source payload. */
  datatype SourceFile = SourceFile(path: string, content: string)

  /** An answer of the API.  `files` is what decoding `sourceCode` as a multi-file payload
      yields, in path order; it is empty when the text is plain source. */
  datatype Answer =
    | Refused
    | Contract(sourceCode: string, files: seq<SourceFile>, implementation: string, similarMatch: string)

  datatype Error = EmptyAddress | Loop(address: string) | Unavailable | NotVerified(causes: seq<Error>)

  type Registry = map<string, Answer>

  // ---- Text ---------------------------------------------------------------------------------

  /** The form in which an address is queried and remembered. */
  function Key(address: string): string { Lower(Trim(address)) }

  predicate EqualFold(a: string, b: string) { Lower(a) == Lower(b) }

  predicate Contains(s: string, part: string) {
    |part| <= |s| && (s[..|part|] == part || (s != "" && Contains(s[1..], part)))
  }

  function AfterLastColon(s: string): string {
    if ':' in s then AfterLastColon(s[1..]) else s
  }

  function NormalizeContractAddress(value: string): string {
    var lowered := Trim(Lower(value));
    if lowered == "" then ""
    else
      var tail := if Contains(lowered, ":0x") then AfterLastColon(lowered) else lowered;
      if "0x" <= tail && |tail| == 42 then tail else Trim(value)
  }

  function JoinFiles(files: seq<SourceFile>): string {
    if files == [] then ""
    else "// ===== File: " + files[0].path + " =====\n" + files[0].content
         + (if files[0].content != "" && files[0].content[|files[0].content| - 1] != '\n' then "\n" else "")
         + "\n" + JoinFiles(files[1..])
  }

  function NormalizeSource(a: Answer): string
    requires a.Contract?
  {
    var raw := Trim(a.sourceCode);
    if raw == "" || a.files == [] then raw else JoinFiles(a.files)
  }

  /** Flattening keeps a blank source blank and a real source real. */
  lemma NormalizeSourceBlank(a: Answer)
    requires a.Contract?
    ensures Blank(NormalizeSource(a)) <==> Blank(a.sourceCode)
  {
    TrimmedIsBlankToo(a.sourceCode);
    if Trim(a.sourceCode) != "" && a.files != [] {
      BlankIsAllSpace(JoinFiles(a.files));
      assert JoinFiles(a.files)[0] == '/';
    }
  }

  // ---- The search ---------------------------------------------------------------------------

  predicate Followed(key: string, link: string) { link != "" && !EqualFold(link, key) }

  predicate Found(r: Result<string, Error>) { r.Ok? && !Blank(r.value) }

  function Causes(r: Result<string, Error>): seq<Error> { if r.Err? then [r.error] else [] }

  datatype Outcome = Outcome(result: Result<string, Error>, visited: set<string>)

  /** What the lookup of `address` returns, and the addresses it leaves marked as visited. */
  function Search(reg: Registry, visited: set<string>, address: string): (o: Outcome)
    ensures visited <= o.visited
    decreases reg.Keys - visited, 1
  {
    var key := Key(address);
    if key == "" then Outcome(Err(EmptyAddress), visited)
    else if key in visited then Outcome(Err(Loop(key)), visited)
    else
      var marked := visited + {key};
      if key !in reg || reg[key].Refused? then Outcome(Err(Unavailable), marked)
      else if reg[key].sourceCode != "" then Outcome(Ok(NormalizeSource(reg[key])), marked)
      else
        var first := Follow(reg, marked, key, NormalizeContractAddress(reg[key].implementation));
        if Found(first.result) then first
        else
          var second := Follow(reg, first.visited, key, NormalizeContractAddress(reg[key].similarMatch));
          if Found(second.result) then second
          else Outcome(Err(NotVerified(Causes(first.result) + Causes(second.result))), second.visited)
  }

  /** Looks up one link of `key`; a link that is not followed finds nothing. */
  function Follow(reg: Registry, visited: set<string>, key: string, link: string): (o: Outcome)
    requires key in visited
    ensures visited <= o.visited
    decreases reg.Keys - visited, 2
  {
    if Followed(key, link) then Search(reg, visited, link) else Outcome(Ok(""), visited)
  }

  class Fetcher {
    const registry: Registry
    var visited: set<string>
    /** The addresses queried so far, oldest first. */
    var requests: seq<string>

    constructor (registry: Registry)
      ensures this.registry == registry && visited == {} && requests == []
    {
      this.registry := registry;
      visited, requests := {}, [];
    }

    ghost predicate Valid() reads this {
      Distinct(requests) && (set key <- requests) == visited
    }

    /** The source text of the contract at `address`. Every address is queried at most once. */
    method FetchContract(address: string) returns (r: Result<string, Error>)
      modifies this
      ensures r == Search(registry, {}, address).result
      ensures Distinct(requests)
      ensures Found(r) <==>
              && Key(address) != ""
              && exists key :: Reachable(registry, Key(address), key) && HasSource(registry, key)
      ensures Found(r) ==> exists key :: Reachable(registry, Key(address), key) && HasSource(registry, key)
                                         && r.value == NormalizeSource(registry[key])
    {
      visited, requests := {}, [];
      r := FetchRecursive(address);
      SearchIsComplete(registry, address);
    }

    method FetchRecursive(address: string) returns (r: Result<string, Error>)
      requires Valid()
      modifies this
      ensures Valid() && old(requests) <= requests
      ensures Outcome(r, visited) == Search(registry, old(visited), address)
      decreases registry.Keys - visited, 1
    {
      var key := Key(address);
      if key == "" {
        return Err(EmptyAddress);
      }
      if key in visited {
        return Err(Loop(key));
      }
      visited := visited + {key};
      requests := requests + [key];

      if key !in registry || registry[key].Refused? {
        return Err(Unavailable);
      }
      var answer := registry[key];
      if answer.sourceCode != "" {
        return Ok(NormalizeSource(answer));
      }
      var first := FetchLink(key, NormalizeContractAddress(answer.implementation));
      if first.Ok? && !Blank(first.value) {
        return first;
      }
      var second := FetchLink(key, NormalizeContractAddress(answer.similarMatch));
      if second.Ok? && !Blank(second.value) {
        return second;
      }
      return Err(NotVerified(Causes(first) + Causes(second)));
    }

    /** The lookup of one link, repeated for both links in the original; a link that is not
        followed answers with an empty text. */
    method FetchLink(key: string, link: string) returns (r: Result<string, Error>)
      requires Valid() && key in visited
      modifies this
      ensures Valid() && old(requests) <= requests
      ensures Outcome(r, visited) == Follow(registry, old(visited), key, link)
      decreases registry.Keys - visited, 2
    {
      r := Ok("");
      if link != "" && !EqualFold(link, key) {
        r := FetchRecursive(link);
      }
    }
  }

  // ---- What the search means --------------------------------------------------------------------

  /** The addresses a contract without source points to. */
  function Links(reg: Registry, key: string): set<string> {
    if key in reg && reg[key].Contract? && reg[key].sourceCode == "" then
      set link | link in {NormalizeContractAddress(reg[key].implementation),
                          NormalizeContractAddress(reg[key].similarMatch)}
                 && Followed(key, link) && Key(link) != "" :: Key(link)
    else {}
  }

  ghost predicate HasSource(reg: Registry, key: string) {
    key in reg && reg[key].Contract? && !Blank(reg[key].sourceCode)
  }

  /** A walk along links, listed from its first address to its last. */
  ghost predicate Walk(reg: Registry, p: seq<string>) {
    |p| > 0 && forall i | 0 <= i < |p| - 1 :: p[i + 1] in Links(reg, p[i])
  }

  ghost predicate Reachable(reg: Registry, from: string, to: string) {
    exists p :: Walk(reg, p) && p[0] == from && p[|p| - 1] == to
  }

  lemma ReachableSelf(reg: Registry, key: string)
    ensures Reachable(reg, key, key)
  {
    assert Walk(reg, [key]);
  }

  lemma ReachableStep(reg: Registry, from: string, mid: string, to: string)
    requires mid in Links(reg, from) && Reachable(reg, mid, to)
    ensures Reachable(reg, from, to)
  {
    var p :| Walk(reg, p) && p[0] == mid && p[|p| - 1] == to;
    var q := [from] + p;
    forall i | 0 <= i < |q| - 1 ensures q[i + 1] in Links(reg, q[i]) {
      if i > 0 {
        assert q[i] == p[i - 1] && q[i + 1] == p[i];
      }
    }
    assert Walk(reg, q);
  }

  /** A set closed under links contains everything reachable from inside it. */
  lemma ClosedContainsReachable(reg: Registry, closed: set<string>, p: seq<string>)
    requires Walk(reg, p) && p[0] in closed
    requires forall key <- closed :: Links(reg, key) <= closed
    ensures p[|p| - 1] in closed
  {
    var i := 0;
    while i < |p| - 1
      invariant 0 <= i < |p| && p[i] in closed
    {
      i := i + 1;
    }
  }

  /** A result that found code: `key` is where it came from. */
  ghost predicate FoundFrom(reg: Registry, from: string, r: Result<string, Error>) {
    exists key :: Reachable(reg, from, key) && HasSource(reg, key) && r == Ok(NormalizeSource(reg[key]))
  }

  /** A fruitless search: what it newly marked has no source and links only to marked addresses,
      although some of those links were cut short at marks left by other branches. */
  ghost predicate Exhausted(reg: Registry, before: set<string>, after: set<string>) {
    forall key <- after - before :: !HasSource(reg, key) && Links(reg, key) <= after
  }

  lemma {:induction false} SearchSound(reg: Registry, visited: set<string>, address: string)
    requires Key(address) != ""
    ensures var o := Search(reg, visited, address);
            && (Found(o.result) ==> FoundFrom(reg, Key(address), o.result))
            && (!Found(o.result) ==> Key(address) in o.visited && Exhausted(reg, visited, o.visited))
    decreases reg.Keys - visited, 1
  {
    var key := Key(address);
    if key !in visited {
      if key in reg && reg[key].Contract? {
        if reg[key].sourceCode != "" {
          NormalizeSourceBlank(reg[key]);
          ReachableSelf(reg, key);
        } else {
          BlankIsAllSpace("");
          var marked := visited + {key};
          var impl := NormalizeContractAddress(reg[key].implementation);
          var similar := NormalizeContractAddress(reg[key].similarMatch);
          FollowSound(reg, marked, key, impl);
          var first := Follow(reg, marked, key, impl);
          if !Found(first.result) {
            FollowSound(reg, first.visited, key, similar);
          }
        }
      }
    }
  }

  lemma {:induction false} FollowSound(reg: Registry, visited: set<string>, key: string, link: string)
    requires key in visited && key in reg && reg[key].Contract? && reg[key].sourceCode == ""
    requires link == NormalizeContractAddress(reg[key].implementation)
          || link == NormalizeContractAddress(reg[key].similarMatch)
    ensures var o := Follow(reg, visited, key, link);
            && (Found(o.result) ==> FoundFrom(reg, key, o.result))
            && (!Found(o.result) ==> Exhausted(reg, visited, o.visited)
                                     && (Followed(key, link) && Key(link) != "" ==> Key(link) in o.visited))
    decreases reg.Keys - visited, 2
  {
    BlankIsAllSpace("");
    if Followed(key, link) && Key(link) != "" {
      SearchSound(reg, visited, link);
      var o := Search(reg, visited, link);
      if Found(o.result) {
        var to :| Reachable(reg, Key(link), to) && HasSource(reg, to) && o.result == Ok(NormalizeSource(reg[to]));
        ReachableStep(reg, key, Key(link), to);
      }
    }
  }

  /** From a clean start the search finds code if and only if a contract with source is reachable. */
  lemma SearchIsComplete(reg: Registry, address: string)
    ensures var r := Search(reg, {}, address).result;
            && (Found(r) <==>
                && Key(address) != ""
                && exists key :: Reachable(reg, Key(address), key) && HasSource(reg, key))
            && (Found(r) ==> FoundFrom(reg, Key(address), r))
  {
    if Key(address) != "" {
      SearchSound(reg, {}, address);
      var o := Search(reg, {}, address);
      if !Found(o.result) {
        forall key | Reachable(reg, Key(address), key) ensures !HasSource(reg, key) {
          var p :| Walk(reg, p) && p[0] == Key(address) && p[|p| - 1] == key;
          ClosedContainsReachable(reg, o.visited, p);
        }
      }
    }
  }

  /** A lookup succeeds with an empty text exactly when the contract asked for has a source of
      nothing but white space: its links are then not followed. */
  lemma BlankSuccessIff(reg: Registry, address: string)
    ensures var r := Search(reg, {}, address).result;
            r.Ok? && Blank(r.value) <==>
              var key := Key(address);
              key != "" && key in reg && reg[key].Contract? && reg[key].sourceCode != "" && Blank(reg[key].sourceCode)
  {
    var key := Key(address);
    if key != "" && key in reg && reg[key].Contract? {
      NormalizeSourceBlank(reg[key]);
    }
  }
}
