/** The contest runtime service as the object it is in the source
    (backend/internal/service/contest_env_service.go): methods that update the environment table
    and the live pods.  Each is proved to be exactly the step, or the sequence of steps, that
    `ChallengeEnv` gives it; the leak theorems there are about those steps. */
module ChallengeRuntime {
  import opened Common
  import opened ChallengePods
  import opened ChallengeEnv

  /** Bounds the actions a provisioner has left. */
  function Remaining(orch: Orchestration, id: string, stage: Stage): nat {
    var n := |ServicePods(id, orch)|;
    match stage
    case StartWorkspace => 2 * n + 9
    case StartService(i) => if i < n then 2 * n + 8 - i else n + 8
    case StartFork => n + 7
    case Seed => n + 6
    case Reread => n + 5
    case Publish => 1
    case CleanUp(todo, _) => |todo| + 1
    case Ended => 0
  }

  /** The provisioner of `id` runs alone to its end; `answers` says how its actions go. */
  function Drive(w: World, orch: Orchestration, id: string, answers: nat -> Answer, tick: nat, now: int): World
    requires id in w.rows && id in w.stages
    decreases Remaining(orch, id, w.stages[id])
  {
    if w.stages[id] == Ended then w
    else
      StepDecreases(w, orch, id, answers(tick), now);
      ProvisionFrame(w, orch, id, answers(tick), now);
      Drive(ProvisionStep(w, orch, id, answers(tick), now), orch, id, answers, tick + 1, now)
  }

  /** Every action brings a provisioner closer to its end. */
  lemma StepDecreases(w: World, orch: Orchestration, id: string, r: Answer, now: int)
    requires id in w.rows && id in w.stages && w.stages[id] != Ended
    ensures var v := ProvisionStep(w, orch, id, r, now);
            id in v.stages && Remaining(orch, id, v.stages[id]) < Remaining(orch, id, w.stages[id])
  {
    hide ServicePods, ForkPodName;
  }

  class ContestRuntime {
    const orchs: Orchestrations
    var rows: map<string, Row>
    var order: seq<string>
    var live: set<string>
    ghost var stages: map<string, Stage>
    /** What requests that are still to be answered have read. */
    ghost var seen: map<nat, Read>
    /** How many provisioner calls have been made. */
    var tick: nat

    constructor (orchs: Orchestrations)
      ensures this.orchs == orchs && State() == EMPTY
    {
      this.orchs := orchs;
      rows, order, live := map[], [], {};
      stages, seen, tick := map[], map[], 0;
    }

    ghost function State(): World reads this { World(rows, stages, order, live, seen) }

    /** A pod that does not come up is deleted again, unless that fails too. */
    method StartInstance(name: string, r: Answer) returns (ok: bool)
      modifies this`live
      ensures ok == r.ok
      ensures live == if r.ok || !r.gone then old(live) + {name} else old(live)
    {
      if r.ok || !r.gone {
        live := live + {name};
      }
      return r.ok;
    }

    /** The error of a deletion that fails is dropped by every caller. */
    method StopInstance(name: string, gone: bool)
      modifies this`live
      ensures live == if gone then old(live) - IfSet(name) else old(live)
    {
      if name == "" {
        return;
      }
      if gone {
        live := live - {name};
      }
    }

    /** Stops the pods recorded in a row and every service pod its challenge can have, except
        those whose deletion fails. */
    method CleanupPersistedChallengeEnv(id: string, row: Row, kept: set<string>)
      requires row.slot.challenge in orchs
      modifies this`live
      ensures live == old(live) - (Stopped(id, row, orchs[row.slot.challenge]) - kept)
    {
      StopInstance(row.podName, row.podName !in kept);
      var bundles := BuildRuntimeBundles(orchs[row.slot.challenge].services);
      assert bundles[..0] == [] && Names(id, Flatten([])) == [];
      hide Names, Flatten;
      for i := 0 to |bundles|
        invariant live == old(live) - (IfSet(row.podName) - kept) - (NamesUpTo(id, bundles, i) - kept)
      {
        NamesGrow(id, bundles, i);
        StopComponents(id, bundles[i].components, kept);
      }
      assert bundles[..|bundles|] == bundles;
      StopInstance(row.forkPodName, row.forkPodName !in kept);
    }

    method StopComponents(id: string, keys: seq<string>, kept: set<string>)
      modifies this`live
      ensures live == old(live) - ((set name <- Names(id, keys)) - kept)
    {
      for j := 0 to |keys|
        invariant live == old(live) - ((set name <- Names(id, keys[..j])) - kept)
      {
        NamesLast(id, keys[..j], keys[j]);
        assert keys[..j + 1] == keys[..j] + [keys[j]];
        StopInstance(ServicePodName(id, keys[j]), ServicePodName(id, keys[j]) !in kept);
      }
      assert keys[..|keys|] == keys;
    }

    method GetActive(slot: Slot) returns (found: Option<string>)
      ensures found == FindActive(State(), slot)
    {
      var i := |order|;
      assert order[..i] == order;
      while i > 0
        invariant 0 <= i <= |order|
        invariant FindIn(rows, order, slot) == FindIn(rows, order[..i], slot)
      {
        i := i - 1;
        assert order[..i + 1][..i] == order[..i];
        var id := order[i];
        if id in rows && rows[id].slot == slot && Active(rows[id].status) {
          return Some(id);
        }
      }
      return None;
    }

    /** The row a request works on from here on. */
    method Look(slot: Slot) returns (read: Option<Read>)
      ensures read == ReadOf(State(), slot)
    {
      FindInFinds(rows, order, slot);
      var active := GetActive(slot);
      if active == None {
        return None;
      }
      return Some(Read(active.value, rows[active.value]));
    }

    /** A Stop from the row it has read on. */
    method StopChallengeEnv(env: Read, saved: bool, kept: set<string>)
      requires env.row.slot.challenge in orchs
      modifies this`live, this`rows
      ensures State() == StopRequest(orchs, old(State()), Some(env), saved, kept)
    {
      if env.row.podName != "" {
        CleanupPersistedChallengeEnv(env.id, env.row, kept);
      }
      if saved {
        rows := rows[env.id := env.row.(status := Terminated)];
      }
    }

    /** A Start from the row it has read on, if it has read one. Returns the id of the environment
        handed to the user, or None when the insert of the new row fails; a new environment gets a
        provisioner. */
    method StartChallengeEnv(existing: Option<Read>, slot: Slot, newID: string, now: int, c: StartCalls)
      returns (id: Option<string>)
      requires existing.Some? ==> existing.value.row.slot == slot
      requires slot.challenge in orchs
      modifies this`live, this`rows, this`order, this`stages
      ensures State() == StartRequest(orchs, old(State()), existing, slot, newID, now, c)
      ensures existing == None ==>
                && id == (if c.inserted then Some(newID) else None) && live == old(live)
                && rows == if c.inserted then old(rows)[newID := Row(slot, Creating, "", "", None)] else old(rows)
      ensures existing.Some? ==>
                var oldID, row := existing.value.id, existing.value.row;
                if || (row.status == Running && row.expiresAt.Some? && now < row.expiresAt.value)
                   || row.status == Pending || row.status == Creating
                then id == Some(oldID) && State() == old(State())
                else
                  var named := (set name <- ServicePods(oldID, orchs[slot.challenge]))
                               + ({row.podName, row.forkPodName} - {""});
                  var over := Row(slot, Terminated, row.podName, row.forkPodName, row.expiresAt);
                  var stored := if c.saved then old(rows)[oldID := over] else old(rows);
                  && id == (if c.inserted then Some(newID) else None) && live == old(live) - (named - c.kept)
                  && rows == if c.inserted then stored[newID := Row(slot, Creating, "", "", None)] else stored
    {
      if existing.Some? {
        var row := existing.value.row;
        if row.status == Running && row.expiresAt.Some? && now < row.expiresAt.value {
          return Some(existing.value.id);
        }
        if row.status == Pending || row.status == Creating {
          return Some(existing.value.id);
        }
        CleanupPersistedChallengeEnv(existing.value.id, row, c.kept);
        assert IfSet(row.podName) + IfSet(row.forkPodName) == {row.podName, row.forkPodName} - {""};
        if c.saved {
          rows := rows[existing.value.id := row.(status := Terminated)];
        }
      }
      if !c.inserted {
        return None;
      }
      rows := rows[newID := Row(slot, Creating, "", "", None)];
      order := order + [newID];
      stages := stages[newID := StartWorkspace];
      return Some(newID);
    }

    /** A status request from the row it has read on. */
    method GetChallengeEnvStatus(env: Read, now: int) returns (status: Status)
      modifies this`rows
      ensures State() == PollRequest(old(State()), Some(env), now)
      ensures status == if Expires(Some(env), now) then Expired else env.row.status
    {
      status := env.row.status;
      if env.row.expiresAt.Some? && env.row.expiresAt.value < now {
        status := Expired;
        rows := rows[env.id := env.row.(status := Expired)];
      }
    }

    /** The provisioner still has exactly `end` as its outcome. */
    ghost predicate OnCourse(orch: Orchestration, id: string, answers: nat -> Answer, now: int, end: World)
      reads this
    {
      id in rows && id in stages && Drive(State(), orch, id, answers, tick, now) == end
    }

    /** Stops started pods in order: services, then the workspace, then the fork if there is one. */
    method StopPods(id: string, names: seq<string>, mark: bool, orch: Orchestration,
                    answers: nat -> Answer, now: int, ghost end: World)
      requires OnCourse(orch, id, answers, now, end) && stages[id] == CleanUp(names, mark) && "" !in names
      modifies this`live, this`stages, this`tick
      ensures OnCourse(orch, id, answers, now, end) && stages == old(stages)[id := CleanUp([], mark)]
    {
      assert names[0..] == names;
      for k := 0 to |names|
        invariant OnCourse(orch, id, answers, now, end) && stages == old(stages)[id := CleanUp(names[k..], mark)]
      {
        StopNext(id, names[k..], mark, orch, answers, now, end);
        assert names[k..][1..] == names[k + 1..];
      }
      assert names[|names|..] == [];
    }

    method StopNext(id: string, todo: seq<string>, mark: bool, orch: Orchestration,
                    answers: nat -> Answer, now: int, ghost end: World)
      requires OnCourse(orch, id, answers, now, end) && stages[id] == CleanUp(todo, mark)
      requires todo != [] && todo[0] != ""
      modifies this`live, this`stages, this`tick
      ensures OnCourse(orch, id, answers, now, end) && stages == old(stages)[id := CleanUp(todo[1..], mark)]
    {
      hide Drive, ServicePods;
      ghost var before, t := State(), tick;
      StopInstance(todo[0], answers(tick).gone);
      stages, tick := stages[id := CleanUp(todo[1..], mark)], tick + 1;
      DriveStep(before, State(), orch, id, answers, t, now);
    }

    /** Saves the row as failed, unless the tear-down answers a user's Stop. */
    method MarkFailed(id: string, mark: bool, orch: Orchestration, answers: nat -> Answer, now: int, ghost end: World)
      requires OnCourse(orch, id, answers, now, end) && stages[id] == CleanUp([], mark)
      modifies this`rows, this`stages, this`tick
      ensures State() == end
    {
      hide ServicePods;
      ghost var before, t := State(), tick;
      if mark && answers(tick).ok {
        rows := rows[id := Row(rows[id].slot, Failed, "", "", None)];
      }
      stages, tick := stages[id := Ended], tick + 1;
      DriveStep(before, State(), orch, id, answers, t, now);
    }

    /** The background provisioner, undisturbed: the steps of `ChallengeEnv`, one after another. */
    method ProvisionChallengeEnv(id: string, orch: Orchestration, answers: nat -> Answer, now: int)
      requires id in rows && id in stages && id != "" && stages[id] == StartWorkspace
      modifies this`live, this`rows, this`stages, this`tick
      ensures State() == Drive(old(State()), orch, id, answers, old(tick), now)
      ensures id in stages && stages[id] == Ended
    {
      ghost var end := Drive(State(), orch, id, answers, tick, now);
      DriveEnds(State(), orch, id, answers, tick, now);
      ghost var before, t := State(), tick;
      var ok := StartInstance(id, answers(tick));
      stages, tick := stages[id := if ok then StartService(0) else CleanUp([], true)], tick + 1;
      DriveStep(before, State(), orch, id, answers, t, now);
      if !ok {
        MarkFailed(id, true, orch, answers, now, end);
        return;
      }

      StartServicePods(id, orch, answers, now, end);
    }

    method StartServicePods(id: string, orch: Orchestration, answers: nat -> Answer, now: int, ghost end: World)
      requires OnCourse(orch, id, answers, now, end) && stages[id] == StartService(0) && id != ""
      modifies this`live, this`rows, this`stages, this`tick
      ensures State() == end
    {
      hide Drive, ProvisionStep, ServicePods;
      var configs := BuildServicePodConfigs(id, orch);
      NamesNotEmpty(id, orch);
      var createdServicePods := [];
      for i := 0 to |configs|
        invariant createdServicePods == configs[..i]
        invariant OnCourse(orch, id, answers, now, end) && stages[id] == StartService(i)
      {
        var ok := StartOneService(id, i, configs, orch, answers, now, end);
        if !ok {
          GiveUp(id, createdServicePods + [id], orch, answers, now, end);
          return;
        }
        createdServicePods := createdServicePods + [configs[i]];
      }
      assert createdServicePods == configs;
      ServicesDone(id, |configs|, orch, answers, now, end);
      FinishProvisioning(id, createdServicePods, orch, answers, now, end);
    }

    /** A start that failed: stops what was started and marks the row. */
    method GiveUp(id: string, started: seq<string>, orch: Orchestration, answers: nat -> Answer, now: int,
                  ghost end: World)
      requires OnCourse(orch, id, answers, now, end) && stages[id] == CleanUp(started, true) && "" !in started
      modifies this`live, this`rows, this`stages, this`tick
      ensures State() == end
    {
      StopPods(id, started, true, orch, answers, now, end);
      MarkFailed(id, true, orch, answers, now, end);
    }

    method StartOneService(id: string, i: nat, configs: seq<string>, orch: Orchestration, answers: nat -> Answer,
                           now: int, ghost end: World)
      returns (ok: bool)
      requires OnCourse(orch, id, answers, now, end) && stages[id] == StartService(i)
      requires configs == ServicePods(id, orch) && i < |configs|
      modifies this`live, this`stages, this`tick
      ensures OnCourse(orch, id, answers, now, end)
      ensures stages == old(stages)[id := if ok then StartService(i + 1) else CleanUp(configs[..i] + [id], true)]
    {
      ghost var before, t := State(), tick;
      ok := StartInstance(configs[i], answers(tick));
      stages, tick := stages[id := if ok then StartService(i + 1) else CleanUp(configs[..i] + [id], true)], tick + 1;
      DriveStep(before, State(), orch, id, answers, t, now);
    }

    method ServicesDone(id: string, i: nat, orch: Orchestration, answers: nat -> Answer, now: int, ghost end: World)
      requires OnCourse(orch, id, answers, now, end) && stages[id] == StartService(i) && i >= |ServicePods(id, orch)|
      modifies this`stages, this`tick
      ensures OnCourse(orch, id, answers, now, end) && stages == old(stages)[id := StartFork]
    {
      hide Drive, ServicePods;
      ghost var before, t := State(), tick;
      stages, tick := stages[id := StartFork], tick + 1;
      DriveStep(before, State(), orch, id, answers, t, now);
    }

    /** From the fork to the published row. */
    method FinishProvisioning(id: string, created: seq<string>, orch: Orchestration, answers: nat -> Answer, now: int,
                              ghost end: World)
      requires OnCourse(orch, id, answers, now, end) && stages[id] == StartFork
      requires id != "" && created == ServicePods(id, orch) && "" !in created
      modifies this`live, this`rows, this`stages, this`tick
      ensures State() == end
    {
      hide Drive, ServicePods;
      var forkPodName := "";
      ghost var before, t := State(), tick;
      if orch.fork {
        var ok := StartInstance(ForkPodName(id), answers(tick));
        if !ok {
          stages, tick := stages[id := CleanUp(created + [id], true)], tick + 1;
          DriveStep(before, State(), orch, id, answers, t, now);
          GiveUp(id, created + [id], orch, answers, now, end);
          return;
        }
        forkPodName := ForkPodName(id);
      }
      stages, tick := stages[id := Seed], tick + 1;
      DriveStep(before, State(), orch, id, answers, t, now);
      SeedAndPublish(id, created, forkPodName, orch, answers, now, end);
    }

    method SeedAndPublish(id: string, created: seq<string>, forkPodName: string, orch: Orchestration,
                          answers: nat -> Answer, now: int, ghost end: World)
      requires OnCourse(orch, id, answers, now, end) && stages[id] == Seed
      requires id != "" && created == ServicePods(id, orch) && "" !in created
      requires forkPodName == if orch.fork then ForkPodName(id) else ""
      modifies this`live, this`rows, this`stages, this`tick
      ensures State() == end
    {
      hide Drive, ServicePods;
      var started := created + [id] + (if forkPodName != "" then [forkPodName] else []);
      ghost var before, t := State(), tick;
      var ok := answers(tick).ok;
      if !ok {
        stages, tick := stages[id := CleanUp(started, true)], tick + 1;
        DriveStep(before, State(), orch, id, answers, t, now);
        GiveUp(id, started, orch, answers, now, end);
        return;
      }
      stages, tick := stages[id := Reread], tick + 1;
      DriveStep(before, State(), orch, id, answers, t, now);
      RereadAndPublish(id, started, forkPodName, orch, answers, now, end);
    }

    method RereadAndPublish(id: string, started: seq<string>, forkPodName: string, orch: Orchestration,
                            answers: nat -> Answer, now: int, ghost end: World)
      requires OnCourse(orch, id, answers, now, end) && stages[id] == Reread && "" !in started
      requires started == ServicePods(id, orch) + [id] + (if orch.fork then [ForkPodName(id)] else [])
      requires forkPodName == if orch.fork then ForkPodName(id) else ""
      modifies this`live, this`rows, this`stages, this`tick
      ensures State() == end
    {
      hide Drive, ServicePods;
      ghost var before, t := State(), tick;
      var ok := answers(tick).ok;
      if ok && rows[id].status == Terminated {
        stages, tick := stages[id := CleanUp(started, false)], tick + 1;
        DriveStep(before, State(), orch, id, answers, t, now);
        StopPods(id, started, false, orch, answers, now, end);
        MarkFailed(id, false, orch, answers, now, end);
        return;
      }
      stages, tick := stages[id := Publish], tick + 1;
      DriveStep(before, State(), orch, id, answers, t, now);
      PublishRow(id, forkPodName, orch, answers, now, end);
    }

    method PublishRow(id: string, forkPodName: string, orch: Orchestration, answers: nat -> Answer, now: int,
                      ghost end: World)
      requires OnCourse(orch, id, answers, now, end) && stages[id] == Publish
      requires forkPodName == if orch.fork then ForkPodName(id) else ""
      modifies this`rows, this`stages, this`tick
      ensures State() == end
    {
      hide ServicePods;
      ghost var before, t := State(), tick;
      if answers(tick).ok {
        rows := rows[id := Row(rows[id].slot, Running, id, forkPodName, Some(now + TimeLimit(orch)))];
      }
      stages, tick := stages[id := Ended], tick + 1;
      DriveStep(before, State(), orch, id, answers, t, now);
    }
  }

  lemma DriveStep(w: World, v: World, orch: Orchestration, id: string, answers: nat -> Answer, tick: nat, now: int)
    requires id in w.rows && id in w.stages && w.stages[id] != Ended
    requires v == ProvisionStep(w, orch, id, answers(tick), now)
    ensures id in v.rows && id in v.stages
    ensures Drive(w, orch, id, answers, tick, now) == Drive(v, orch, id, answers, tick + 1, now)
  {
    StepDecreases(w, orch, id, answers(tick), now);
    ProvisionFrame(w, orch, id, answers(tick), now);
  }

  /** An undisturbed provisioner always ends. */
  lemma {:induction false} DriveEnds(w: World, orch: Orchestration, id: string, answers: nat -> Answer, tick: nat,
                                     now: int)
    requires id in w.rows && id in w.stages
    ensures var end := Drive(w, orch, id, answers, tick, now); id in end.stages && end.stages[id] == Ended
    decreases Remaining(orch, id, w.stages[id])
  {
    if w.stages[id] != Ended {
      var v := ProvisionStep(w, orch, id, answers(tick), now);
      StepDecreases(w, orch, id, answers(tick), now);
      ProvisionFrame(w, orch, id, answers(tick), now);
      DriveEnds(v, orch, id, answers, tick + 1, now);
    }
  }

  lemma NamesNotEmpty(id: string, orch: Orchestration)
    requires id != ""
    ensures "" !in ServicePods(id, orch)
  {}

  lemma ElementsOfBoth(a: seq<string>, b: seq<string>)
    ensures (set name <- a + b) == (set name <- a) + (set name <- b)
  {
  }

  ghost function NamesUpTo(id: string, bundles: seq<Bundle>, n: nat): set<string>
    requires n <= |bundles|
  {
    set name <- Names(id, Flatten(bundles[..n]))
  }

  lemma NamesGrow(id: string, bundles: seq<Bundle>, i: nat)
    requires i < |bundles|
    ensures NamesUpTo(id, bundles, i + 1)
         == NamesUpTo(id, bundles, i) + (set name <- Names(id, bundles[i].components))
  {
    FlattenLast(bundles[..i], bundles[i]);
    assert bundles[..i + 1] == bundles[..i] + [bundles[i]];
    NamesOf(id, Flatten(bundles[..i]), bundles[i].components);
  }

  lemma NamesJoin(id: string, keys: seq<string>, more: seq<string>)
    ensures Names(id, keys + more) == Names(id, keys) + Names(id, more)
  {
  }

  lemma NamesOf(id: string, keys: seq<string>, more: seq<string>)
    ensures (set name <- Names(id, keys + more)) == (set name <- Names(id, keys)) + (set name <- Names(id, more))
  {
    NamesJoin(id, keys, more);
    hide Names;
    ElementsOfBoth(Names(id, keys), Names(id, more));
  }
}
