// The pipeline of one synchronisation (internal/sync/synchronizer.go).
module Synchronizer {
  import opened Wrappers
  import SecretName
  import opened Docker
  import opened Engine
  import opened Rotation
  import opened Grouping
  import opened Rollout
  import opened Stages
  import opened Payload
  import opened ExternalStorage
  import opened Planning
  import opened ProcessSecrets
  import opened ApplyUpdates
  import opened RemoveVersions
  import opened RestoreSecrets

  // ---------------------------------------------------------------- steps 1 and 2

  lemma ShowsLoaded(
    items: seq<ListedSecret>, views: map<string, GroupView>, services: seq<LoadedService>, w: World)
    requires WellFormed(w) && ListsSecrets(items, w) && views == Grouped(items) && ListsServices(services, w)
    ensures Loads(services, views, map[], w)
  {
    MapSecretsMirrors(items, w);
  }

  method LoadSwarmState(engine: Swarm)
    returns (ok: bool, services: seq<LoadedService>, groups: map<string, GroupView>)
    requires WellFormed(engine.world)
    modifies engine`misses
    ensures ok ==> Loads(services, groups, map[], engine.world) && engine.misses == old(engine.misses)
    ensures !ok ==> engine.misses == old(engine.misses) + 1
  {
    services, groups := [], map[];
    var listed := engine.ServiceList();
    if listed.None? {
      return false, services, groups;
    }
    services := listed.value;
    var items := engine.SecretList();
    if items.None? {
      return false, services, groups;
    }
    var secrets := MapSecrets(items.value);
    groups := map p | p in secrets :: secrets[p].View();
    ShowsLoaded(items.value, groups, services, engine.world);
    return true, services, groups;
  }

  // A step with retries runs again on an error, up to three times.
  method LoadWithRetries(engine: Swarm)
    returns (ok: bool, services: seq<LoadedService>, groups: map<string, GroupView>)
    requires WellFormed(engine.world)
    modifies engine`misses
    ensures ok ==> Loads(services, groups, map[], engine.world)
    ensures old(engine.misses) <= engine.misses
    ensures if ok then engine.misses <= old(engine.misses) + 3 else engine.misses == old(engine.misses) + 4
  {
    ok, services, groups := LoadSwarmState(engine);
    var retries := 0;
    while !ok && retries < 3
      invariant ok ==> Loads(services, groups, map[], engine.world)
      invariant retries <= 3 && engine.misses == old(engine.misses) + if ok then retries else retries + 1
      decreases 3 - retries
    {
      retries := retries + 1;
      ok, services, groups := LoadSwarmState(engine);
    }
  }

  method LoadExternalState(provider: Provider) returns (externals: Option<map<string, External>>)
    modifies provider`misses
    ensures externals.Some? ==> externals.value == provider.listing
    ensures old(provider.misses) <= provider.misses
    ensures if externals.Some? then provider.misses <= old(provider.misses) + 3
            else provider.misses == old(provider.misses) + 4
  {
    externals := provider.ListSecrets();
    var retries := 0;
    while externals.None? && retries < 3
      invariant externals.Some? ==> externals.value == provider.listing
      invariant retries <= 3
      invariant provider.misses == old(provider.misses) + if externals.Some? then retries else retries + 1
      decreases 3 - retries
    {
      retries := retries + 1;
      externals := provider.ListSecrets();
    }
  }

  // ---------------------------------------------------------------- steps 1 to 6

  // What steps 1 to 6 made of `w`, with the states after steps 3, 5 and 6.
  ghost predicate SixSteps(
    w: World, want: map<string, Want>, run: map<string, Action>, restored: map<string, SecretId>,
    w3: World, w5: World, w6: World)
  {
    WellFormed(w) && InPast(w3) && Staged(w, want, run, w3) && run.Keys == want.Keys &&
    w5.secrets == w3.secrets - DroppedSet(w, run) && w5.now == w3.now && w5.serial == w3.serial &&
    Restored(w5, want, run, restored, w6) && Moved(w, want, run, w6) && restored.Keys == RotatedPaths(run)
  }

  // Counters: what the paths say, and one count for each secret that went.
  ghost predicate Counted(w: World, run: map<string, Action>, result: SyncResult, size: int) {
    Tally(result, run) &&
    result.removedSecrets == |ParentsIn(w, DroppedSet(w, run))| &&
    result.removedSecretVersions == |ChildrenIn(w, DroppedSet(w, run))| &&
    size == |w.secrets| + result.created + 2 * result.updated - result.removedSecrets - result.removedSecretVersions
  }

  lemma RemovedSame(w3: World, w4: World, w5: World, gone: set<SecretId>, result: SyncResult, result': SyncResult)
    requires Dropping(w4, w5, gone, result, result') && w4.secrets == w3.secrets
    requires result.removedSecrets == 0 && result.removedSecretVersions == 0
    ensures result' == result.(removedSecrets := |ParentsIn(w3, gone)|, removedSecretVersions := |ChildrenIn(w3, gone)|)
    ensures |w5.secrets| == |w4.secrets| - result'.removedSecrets - result'.removedSecretVersions
    ensures w5.secrets == w3.secrets - gone && w5.services == w4.services && w5.now == w4.now && w5.serial == w4.serial
  {
    assert ParentsIn(w4, gone) == ParentsIn(w3, gone) && ChildrenIn(w4, gone) == ChildrenIn(w3, gone);
    DroppingCounts(w4, w5, gone, result, result');
  }

  lemma CountedDone(
    c: Work, start: Mark, m3: Mark, w4: World, w5: World, w6: World, result': SyncResult)
    requires Progress(c, start, m3) && KeepsSecrets(start.world, m3.world)
    requires w4.secrets == m3.world.secrets && Dropping(w4, w5, DroppedSet(start.world, c.run), c.result, result')
    requires |w6.secrets| == |w5.secrets| + |RotatedPaths(c.run)|
    ensures Counted(start.world, c.run, result', |w6.secrets|)
  {
    var w, w3, run := start.world, m3.world, c.run;
    RemovedSame(w3, w4, w5, DroppedSet(w, run), c.result, result');
    assert ParentsIn(w3, DroppedSet(w, run)) == ParentsIn(w, DroppedSet(w, run));
    assert ChildrenIn(w3, DroppedSet(w, run)) == ChildrenIn(w, DroppedSet(w, run));
  }

  lemma SixStepsDone(
    w: World, want: map<string, Want>, run: map<string, Action>, restored: map<string, SecretId>,
    w3: World, w4: World, w5: World, w6: World)
    requires WellFormed(w) && WellFormed(w3) && Staged(w, want, run, w3) && run.Keys == want.Keys
    requires Moved(w, want, run, w4) && w4.secrets == w3.secrets && w4.serial == w3.serial && w4.now == w3.now
    requires w5 == DropSecrets(w4, DroppedSet(w, run))
    requires Restored(w5, want, run, restored, w6) && restored.Keys == RotatedPaths(run)
    ensures SixSteps(w, want, run, restored, w3, w5, w6)
  {
  }

  datatype StepName = LoadSwarm | LoadExternal | Process | ApplyServices | RemoveOld | RestoreParents | Reload | Cleanup

  lemma NoTasks(payload: SyncPayload)
    requires payload.QueueValid()
    ensures (|payload.tasks| == 0) == (|payload.order| == 0) == (payload.queue == map[])
  {
    if |payload.order| > 0 {
      assert payload.order[0].service.id in payload.tasks;
    }
    if payload.tasks != map[] {
      var s :| s in payload.tasks;
      assert payload.position[s] < |payload.order|;
      assert s in payload.queue;
    }
  }

  // Step 4 with its guard: afterwards every service is on its target.
  method RollOutServices(payload: SyncPayload, engine: Swarm, ghost w: World, ghost want: map<string, Want>)
    returns (ok: bool)
    requires payload.QueueValid() && payload.RefsLoaded() && Loads(payload.services, payload.groups, payload.run, w)
    requires Queuing(w, want, engine.world, payload.CurrentWork()) && payload.offset == 0
    modifies payload`offset, payload.tasks.Values, engine`world, engine`journal, engine`faults
    ensures WellFormed(engine.world) && Safe(old(engine.journal), engine.journal)
    ensures Planned(old(engine.journal), engine.journal, w, want, payload.run)
    ensures ok ==> Moved(w, want, payload.run, engine.world)
    ensures ok ==> Ids(payload.order, |payload.order|) == Delivered(engine.journal[|old(engine.journal)|..])
    ensures engine.world.secrets == old(engine.world).secrets && engine.world.serial == old(engine.world).serial
    ensures engine.world.now == old(engine.world).now
    ensures if ok then FailedUpdates(old(engine.journal), engine.journal) <= 3
            else FailedUpdates(old(engine.journal), engine.journal) == 4
    ensures !ok ==> engine.faults > old(engine.faults)
    ensures engine.faults >= old(engine.faults)
    ensures payload.queue == map[] ==> engine.journal == old(engine.journal)
    ensures payload.queue == old(payload.queue) && payload.run == old(payload.run)
  {
    hide *;
    ghost var w3, run := engine.world, payload.run;
    WorkParts(payload);
    QueuedBefore(w, want, w3, payload.CurrentWork());
    LoadsAt(payload.services, payload.groups, run, w, "");
    RollingStart(payload, w, want, w3);
    NoTasks(payload);
    ok := true;
    PlannedStart(engine.journal, w, want, run);
    FailedNone(engine.journal);
    DeliveredStart(engine.journal, payload.order, 0);
    if |payload.tasks| > 0 {
      ok := ApplyWithRetries(payload, engine, w, want, w3);
    }
    RollingFacts(payload, w, want, w3, engine.world);
    if ok {
      RolledOut(payload, w, want, w3, engine.world);
      DeliveredAll(old(engine.journal), engine.journal, payload.order);
    }
  }

  lemma DeliveredAll(before: seq<Call>, after: seq<Call>, order: seq<ServiceTask>)
    requires DeliveredIs(before, after, order, 0, |order|)
    ensures before <= after && Delivered(after[|before|..]) == Ids(order, |order|)
  {
  }

  lemma RollingFacts(payload: SyncPayload, w: World, want: map<string, Want>, w3: World, w': World)
    requires RollingOut(payload, w, want, w3, w')
    ensures WellFormed(w') && w'.secrets == w3.secrets && w'.serial == w3.serial && w'.now == w3.now
  {
  }

  // What was removed is what was counted.
  ghost predicate SizeAfter(w: World, before: SyncResult, after: SyncResult, w': World) {
    after == before.(removedSecrets := after.removedSecrets, removedSecretVersions := after.removedSecretVersions) &&
    |w'.secrets| == |w.secrets| - (after.removedSecrets - before.removedSecrets) -
                    (after.removedSecretVersions - before.removedSecretVersions)
  }

  lemma DroppedSize(w: World, w': World, gone: set<SecretId>, result: SyncResult, result': SyncResult)
    requires Dropping(w, w', gone, result, result')
    ensures SizeAfter(w, result, result', w')
  {
    DroppingCounts(w, w', gone, result, result');
  }

  lemma CreationMore(a: seq<Call>, b: seq<Call>, c: seq<Call>)
    requires Calm(a, b)
    ensures CreationFailed(b, c) ==> CreationFailed(a, c)
  {
  }

  // Steps 5 and 6 with their guards, once the rollout is complete.
  method ReplaceParents(
    payload: SyncPayload, engine: Swarm, ghost w: World, ghost want: map<string, Want>, ghost w3: World)
    returns (failed: Option<StepName>, ghost restored: map<string, SecretId>, ghost w5: World)
    requires Loads(payload.services, payload.groups, payload.run, w)
    requires Queuing(w, want, w3, payload.CurrentWork())
    requires Moved(w, want, payload.run, engine.world) && WellFormed(engine.world)
    requires engine.world.secrets == w3.secrets && engine.world.serial == w3.serial && engine.world.now == w3.now
    modifies payload`result, engine`world, engine`journal, engine`faults
    ensures WellFormed(engine.world) && Calm(old(engine.journal), engine.journal)
    ensures Grown(old(engine.world), want, engine.world)
    ensures failed.None? ==>
              Dropping(old(engine.world), w5, DroppedSet(w, payload.run), old(payload.result), payload.result) &&
              Restored(w5, want, payload.run, restored, engine.world) &&
              restored.Keys == RotatedPaths(payload.run) &&
              |engine.world.secrets| == |w5.secrets| + |restored|
    ensures failed.None? ==> engine.faults == old(engine.faults)
    ensures failed.Some? ==> engine.faults > old(engine.faults)
    ensures failed in {None, Some(RemoveOld), Some(RestoreParents)}
    ensures failed == Some(RemoveOld) ==> RemovalFailed(old(engine.journal), engine.journal)
    ensures failed == Some(RestoreParents) ==> CreationFailed(old(engine.journal), engine.journal)
    ensures failed == Some(RemoveOld) ==>
              SizeAfter(old(engine.world), old(payload.result), payload.result, engine.world)
    ensures DroppedSet(w, payload.run) == {} && |payload.restores| == 0 ==> engine.journal == old(engine.journal)
  {
    hide *;
    ghost var run := payload.run;
    WorkParts(payload);
    QueuingParts(w, want, w3, payload.CurrentWork());
    DroppedSafe(w, want, run, payload.groups, payload.services, payload.removals, w3, engine.world);
    TargetsUpTo(payload.removals, 0, |payload.removals|);
    NoDrop(engine.world, payload.result);
    CalmSame(engine.journal);
    failed, restored, w5 := None, map[], engine.world;
    GrownSame(engine.world, want, engine.world);
    if |payload.removals| > 0 {
      var ok, result;
      ghost var gone;
      ok, result, gone := RemoveOldVersions(payload.result, engine, payload.removals);
      DroppingGrown(old(engine.world), want, engine.world, gone, payload.result, result);
      DroppedSize(old(engine.world), engine.world, gone, payload.result, result);
      payload.result := result;
      w5 := engine.world;
      if !ok {
        return Some(RemoveOld), restored, w5;
      }
    }
    DroppingWorld(old(engine.world), w5, DroppedSet(w, run), old(payload.result), payload.result);
    DropsSecrets(old(engine.world), w5, w3, DroppedSet(w, run));
    ghost var journal := engine.journal;
    RestoreStart(w5, want, run, payload.restores);
    if |payload.restores| > 0 {
      var ok;
      ok, restored := RestoreSecrets.RestoreSecrets(engine, payload.restores, w, want, run, w3);
      CalmMore(old(engine.journal), journal, engine.journal);
      CreationMore(old(engine.journal), journal, engine.journal);
      RestoredGrown(w5, want, run, restored, engine.world);
      GrownMore(old(engine.world), want, w5, engine.world);
      if !ok {
        return Some(RestoreParents), restored, w5;
      }
    } else {
      RestoreEnd(want, run, payload.restores, restored);
    }
  }

  lemma DropsSecrets(w4: World, w5: World, w3: World, gone: set<SecretId>)
    requires w5 == DropSecrets(w4, gone) && w4.secrets == w3.secrets
    ensures w5.secrets == w3.secrets - gone
  {
  }

  // ---------------------------------------------------------------- states with nothing to do

  // The path is on its version, its references are on the parent, and nothing is left to remove.
  ghost predicate QuietAt(w: World, want: map<string, Want>, p: string)
    requires p in want
  {
    Parented(w, p) && LatestIs(w, p, want[p].versionId) &&
    (Managed(w, p) ==> forall i :: InGroup(w, p, i) ==> IsParent(w, p, i)) &&
    (forall s, k :: s in w.services && 0 <= k < |w.services[s].refs| &&
                    InGroup(w, p, w.services[s].refs[k].secretId) ==>
                    IsParent(w, p, w.services[s].refs[k].secretId))
  }

  ghost predicate Quiet(w: World, want: map<string, Want>, cleanup: bool) {
    (forall p :: p in want ==> QuietAt(w, want, p)) && (cleanup ==> forall q :: !Orphan(w, want, q))
  }

  lemma QuietKept(w: World, want: map<string, Want>, w3: World, c: Work)
    requires Queuing(w, want, w3, c)
    requires forall p :: p in want ==> QuietAt(w, want, p)
    ensures AllKept(c.run) && c.queue == map[] && DroppedSet(w, c.run) == {} && |c.restores| == 0
  {
    forall p | p in c.run ensures c.run[p].Kept? {
      assert Acted(w, want, p, c.run[p], w3) && QuietAt(w, want, p);
    }
    QuietQueue(w, want, c.run, c.queue);
    QuietDropped(w, want, c.run);
    RestoresRotated(want, c.run, c.restores);
  }

  lemma RestoresRotated(want: map<string, Want>, run: map<string, Action>, restores: seq<UpdatedSecret>)
    requires RestoresFit(want, run, restores)
    ensures |restores| > 0 ==> !AllKept(run)
  {
    if |restores| > 0 {
      assert RestoreFits(want, run, restores[0]);
    }
  }

  lemma QuietRef(w: World, want: map<string, Want>, run: map<string, Action>, s: ServiceId, i: SecretId)
    requires WellFormed(w) && AllKept(run) && s in w.services && RefersTo(w.services[s].refs, i)
    requires forall p :: p in want ==> QuietAt(w, want, p)
    ensures !NeedsMove(w, want, run, i)
  {
  }

  // A sound queue has an entry only when some reference needs a move.
  lemma SoundEntry(w: World, want: map<string, Want>, run: map<string, Action>, queue: Queue, s: ServiceId)
    requires QueueSound(w, want, run, queue) && s in queue
    ensures s in w.services && exists i :: RefersTo(w.services[s].refs, i) && NeedsMove(w, want, run, i)
  {
  }

  lemma QuietQueue(w: World, want: map<string, Want>, run: map<string, Action>, queue: Queue)
    requires WellFormed(w) && QueueSound(w, want, run, queue) && AllKept(run)
    requires forall p :: p in want ==> QuietAt(w, want, p)
    ensures queue == map[]
  {
    forall s, i | s in w.services && RefersTo(w.services[s].refs, i) ensures !NeedsMove(w, want, run, i) {
      QuietRef(w, want, run, s, i);
    }
    forall s ensures s !in queue {
      if s in queue {
        SoundEntry(w, want, run, queue, s);
      }
    }
  }

  lemma QuietDropped(w: World, want: map<string, Want>, run: map<string, Action>)
    requires AllKept(run) && run.Keys <= want.Keys
    requires forall p :: p in want ==> QuietAt(w, want, p)
    ensures DroppedSet(w, run) == {}
  {
    forall i | i in w.secrets ensures !Dropped(w, run, i) {
      var p := w.secrets[i].logicalPath;
      if p in run {
        assert QuietAt(w, want, p) && InGroup(w, p, i);
      }
    }
  }

  // The orphans after step 6 are the orphans of the loaded state.
  lemma OrphansSame(
    w: World, want: map<string, Want>, run: map<string, Action>, restored: map<string, SecretId>,
    w3: World, w5: World, w6: World)
    requires SixSteps(w, want, run, restored, w3, w5, w6)
    ensures OrphanSet(w6, want) == OrphanSet(w, want)
    ensures forall i :: i in OrphanSet(w, want) ==> i in w.secrets && i in w6.secrets && w6.secrets[i] == w.secrets[i]
  {
    StagedFresh(w, want, run, w3);
    forall i ensures i in OrphanSet(w6, want) <==> i in OrphanSet(w, want)
             ensures i in OrphanSet(w, want) ==> w6.secrets[i] == w.secrets[i]
    {
      if i in w6.secrets && w6.secrets[i].logicalPath !in want {
        OrphanAt(w, want, run, restored, w3, w5, w6, w6.secrets[i].logicalPath, i);
      }
      if i in w.secrets && w.secrets[i].logicalPath !in want {
        OrphanAt(w, want, run, restored, w3, w5, w6, w.secrets[i].logicalPath, i);
      }
    }
  }

  lemma OrphanAt(
    w: World, want: map<string, Want>, run: map<string, Action>, restored: map<string, SecretId>,
    w3: World, w5: World, w6: World, q: string, i: SecretId)
    requires SixSteps(w, want, run, restored, w3, w5, w6) && RunFresh(w, run) && q !in want
    ensures Orphan(w6, want, q) <==> Orphan(w, want, q)
    ensures InGroup(w6, q, i) <==> InGroup(w, q, i)
    ensures InGroup(w, q, i) ==> w6.secrets[i] == w.secrets[i]
  {
    forall j
      ensures InGroup(w6, q, j) <==> InGroup(w, q, j)
      ensures InGroup(w6, q, j) ==> j in w.secrets && w6.secrets[j] == w.secrets[j]
    {
      OtherGroup(w, want, run, restored, w3, w5, w6, q, j);
    }
    OrphanOutside(w, want, run, w6, q);
  }

  // ---------------------------------------------------------------- why a run stops

  // What the outside sees of a moment: Swarm, the requests to change it, and how many requests have failed: to change
  // something or to get a payload, to list Swarm, and to list the external storage.
  datatype Log = Log(world: World, journal: seq<Call>, faults: nat, loads: nat, lists: nat)

  ghost function LogOf(engine: Swarm, provider: Provider): Log
    reads engine, provider
  {
    Log(engine.world, engine.journal, engine.faults + provider.faults, engine.misses, provider.misses)
  }

  // The requests to change something, by the step that ended the run. Only updates of services are tried again, and
  // only the fourth failure of one counts.
  ghost predicate WritesExplain(failed: Option<StepName>, before: seq<Call>, after: seq<Call>) {
    match failed
    case Some(LoadSwarm) => after == before
    case Some(LoadExternal) => after == before
    case Some(Process) => Calm(before, after)
    case Some(ApplyServices) => FailedUpdates(before, after) == 4
    case Some(RemoveOld) => RemovalFailed(before, after) && FailedUpdates(before, after) <= 3
    case Some(RestoreParents) => CreationFailed(before, after) && FailedUpdates(before, after) <= 3
    case Some(Reload) => FailedUpdates(before, after) <= 3
    case Some(Cleanup) => RemovalFailed(before, after) && FailedUpdates(before, after) <= 3
    case None => FailedUpdates(before, after) <= 3
  }

  // The requests for a list, likewise: the first load of Swarm is tried once, the others up to four times.
  ghost predicate ReadsExplain(failed: Option<StepName>, loads: int, lists: int) {
    match failed
    case Some(LoadSwarm) => loads == 1 && lists == 0
    case Some(LoadExternal) => loads == 0 && lists == 4
    case Some(Reload) => loads == 4 && 0 <= lists <= 3
    case Some(Cleanup) => 0 <= loads <= 3 && 0 <= lists <= 3
    case None => 0 <= loads <= 3 && 0 <= lists <= 3
    case _ => loads == 0 && 0 <= lists <= 3
  }

  // Why the run ended where it did; `None` is a success.
  ghost predicate Explains(failed: Option<StepName>, want: map<string, Want>, from: Log, to: Log) {
    && WritesExplain(failed, from.journal, to.journal)
    && ReadsExplain(failed, to.loads - from.loads, to.lists - from.lists)
    && (failed == Some(Process) ==> to.faults > from.faults || !NamesFree(from.world, want))
    && (failed in {Some(LoadSwarm), Some(LoadExternal)} ==> to.world == from.world && to.faults == from.faults)
    && (failed == Some(Process) ==> to.world.services == from.world.services)
    && (failed in {Some(ApplyServices), Some(RemoveOld), Some(RestoreParents), Some(Cleanup)} ==>
          to.faults > from.faults)
    && to.faults >= from.faults
  }

  // The number of secrets and the counters go together; each update has `perUpdate` secrets so far.
  ghost predicate Sized(w: World, perUpdate: int, result: SyncResult, w': World) {
    |w'.secrets| == |w.secrets| + result.created + perUpdate * result.updated - result.removedSecrets -
                    result.removedSecretVersions
  }

  ghost predicate CountsAll(externals: int, result: SyncResult) {
    result.created + result.updated + result.skipped == externals
  }

  // The counters when steps 1 to 6 end.
  ghost predicate SixAccount(failed: Option<StepName>, w: World, externals: int, result: SyncResult, w': World) {
    match failed
    case Some(LoadSwarm) => result == SyncResult(0, 0, 0, 0, 0)
    case Some(LoadExternal) => result == SyncResult(0, 0, 0, 0, 0)
    case Some(Process) => Sized(w, 1, result, w')
    case Some(ApplyServices) => Sized(w, 1, result, w') && CountsAll(externals, result)
    case Some(RemoveOld) => Sized(w, 1, result, w') && CountsAll(externals, result)
    case _ => true
  }

  // The counters that are reported: as far as the run came, but none when step 6 failed.
  ghost predicate Accounts(failed: Option<StepName>, w: World, externals: int, result: SyncResult, w': World) {
    if failed == Some(RestoreParents) then result == SyncResult(0, 0, 0, 0, 0)
    else if failed in {None, Some(Reload), Some(Cleanup)} then Sized(w, 2, result, w') && CountsAll(externals, result)
    else SixAccount(failed, w, externals, result, w')
  }

  // ---------------------------------------------------------------- the pipeline

  lemma LoadedStart(
    w: World, want: map<string, Want>, services: seq<LoadedService>, groups: map<string, GroupView>, c: Work)
    requires WellFormed(w) && "" !in want && Loads(services, groups, map[], w)
    requires c == Work(groups, map[], [], [], SyncResult(0, 0, 0, 0, 0), map[])
    ensures Queuing(w, want, w, c) && WellFormed(w)
  {
    assert Staged(w, want, map[], w);
  }

  lemma StoppedFacts(result: SyncResult, want: map<string, Want>, externals: int, from: Mark, to: Mark)
    requires Stopped(result, want, from, to)
    ensures WellFormed(to.world) && Safe(from.journal, to.journal) && Grown(from.world, want, to.world)
    ensures ClashesStay(from.world, want, to.world) && to.world.services == from.world.services
    ensures to.faults >= from.faults && (to.faults > from.faults || !NamesFree(from.world, want))
    ensures WritesExplain(Some(Process), from.journal, to.journal)
    ensures SixAccount(Some(Process), from.world, externals, result, to.world)
  {
  }

  // No step after the second has touched the payload.
  ghost predicate Unused(payload: SyncPayload)
    reads payload`tasks, payload`order, payload`queue, payload`position, payload`removals, payload`restores
    reads payload`offset, payload`run, payload`result
  {
    payload.tasks == map[] && payload.order == [] && payload.queue == map[] && payload.position == map[] &&
    payload.removals == [] && payload.restores == [] && payload.offset == 0 && payload.run == map[] &&
    payload.result == SyncResult(0, 0, 0, 0, 0)
  }

  lemma FreshPayload(payload: SyncPayload)
    requires Unused(payload)
    ensures payload.QueueValid() && payload.RefsLoaded() && payload.tasks == map[] && payload.offset == 0
    ensures payload.run == map[] && payload.result == SyncResult(0, 0, 0, 0, 0)
    ensures payload.CurrentWork() == Work(payload.groups, map[], [], [], SyncResult(0, 0, 0, 0, 0), map[])
  {
  }

  lemma NewPayload(payload: SyncPayload)
    requires payload.result == SyncResult(0, 0, 0, 0, 0) && payload.tasks == map[] && payload.order == []
    requires payload.removals == [] && payload.restores == [] && payload.offset == 0
    requires payload.run == map[] && payload.queue == map[] && payload.position == map[]
    ensures Unused(payload)
  {
  }

  lemma SameClashes(w: World, want: map<string, Want>)
    ensures ClashesStay(w, want, w)
  {
  }

  lemma NoClashes(w: World, want: map<string, Want>, w': World)
    requires NamesFree(w, want)
    ensures ClashesStay(w, want, w')
  {
  }

  lemma KeepsReady(w: World, want: map<string, Want>, w': World)
    requires Grown(w, want, w') && WellFormed(w')
    ensures Ready(w, want) ==> Ready(w', want)
  {
    if Ready(w, want) {
      GrownReady(w, want, w');
    }
  }

  // Steps 1 and 2.
  method LoadStates(payload: SyncPayload, engine: Swarm, provider: Provider) returns (failed: Option<StepName>)
    requires WellFormed(engine.world)
    modifies payload`services, payload`groups, payload`externals, engine`misses, provider`misses
    ensures failed in {None, Some(LoadSwarm), Some(LoadExternal)}
    ensures failed.None? ==> Loads(payload.services, payload.groups, map[], engine.world)
    ensures failed.None? ==> payload.externals == provider.listing && engine.misses == old(engine.misses)
    ensures ReadsExplain(failed, engine.misses - old(engine.misses), provider.misses - old(provider.misses))
  {
    hide Loads;
    var ok, services, groups := LoadSwarmState(engine);
    if !ok {
      return Some(LoadSwarm);
    }
    payload.services, payload.groups := services, groups;
    var externals := LoadExternalState(provider);
    if externals.None? {
      return Some(LoadExternal);
    }
    payload.externals := externals.value;
    return None;
  }

  // The counters after step 3, and what steps 4 and 5 make of them.
  lemma ProgressSized(c: Work, start: Mark, m3: Mark, want: map<string, Want>, w4: World)
    requires Progress(c, start, m3) && c.run.Keys == want.Keys && w4.secrets == m3.world.secrets
    ensures SixAccount(Some(ApplyServices), start.world, |want|, c.result, w4)
    ensures forall result, w5 :: SizeAfter(w4, c.result, result, w5) ==>
              SixAccount(Some(RemoveOld), start.world, |want|, result, w5)
  {
    TallySum(c.result, c.run);
    assert |c.run| == |c.run.Keys| && |want| == |want.Keys|;
  }

  // The rollout, and the two steps after it.
  lemma RolloutExplains(start: seq<Call>, journal3: seq<Call>, journal4: seq<Call>, ok: bool)
    requires Calm(start, journal3) && Safe(journal3, journal4)
    requires if ok then FailedUpdates(journal3, journal4) <= 3 else FailedUpdates(journal3, journal4) == 4
    ensures Safe(start, journal4)
    ensures if ok then FailedUpdates(start, journal4) <= 3 else FailedUpdates(start, journal4) == 4
    ensures WritesExplain(if ok then None else Some(ApplyServices), start, journal4)
  {
    CalmNotFailed(start, journal3);
    FailedJoin(start, journal3, journal4);
  }

  lemma CalmExplains(start: seq<Call>, journal4: seq<Call>, after: seq<Call>, failed: Option<StepName>)
    requires Safe(start, journal4) && Calm(journal4, after) && FailedUpdates(start, journal4) <= 3
    requires failed in {None, Some(RemoveOld), Some(RestoreParents), Some(Cleanup)}
    requires failed in {Some(RemoveOld), Some(Cleanup)} ==> RemovalFailed(journal4, after)
    requires failed == Some(RestoreParents) ==> CreationFailed(journal4, after)
    ensures Safe(start, after) && FailedUpdates(start, after) <= 3 && WritesExplain(failed, start, after)
  {
    CalmNotFailed(journal4, after);
    FailedJoin(start, journal4, after);
  }

  // Steps 4 to 6.
  method Deliver(
    payload: SyncPayload, engine: Swarm, ghost want: map<string, Want>, ghost start: Mark, ghost m3: Mark)
    returns (failed: Option<StepName>, ghost restored: map<string, SecretId>, ghost w5: World)
    requires payload.QueueValid() && payload.RefsLoaded()
    requires Loads(payload.services, payload.groups, payload.run, start.world)
    requires Queuing(start.world, want, engine.world, payload.CurrentWork())
    requires payload.offset == 0 && payload.run.Keys == want.Keys
    requires m3.world == engine.world && m3.journal == engine.journal && Progress(payload.CurrentWork(), start, m3)
    modifies payload`offset, payload`result, payload.tasks.Values, engine`world, engine`journal, engine`faults
    ensures WellFormed(engine.world) && Safe(start.journal, engine.journal) && Grown(start.world, want, engine.world)
    ensures failed.None? ==>
              SixSteps(start.world, want, payload.run, restored, old(engine.world), w5, engine.world) &&
              Counted(start.world, payload.run, payload.result, |engine.world.secrets|)
    ensures failed in {None, Some(ApplyServices), Some(RemoveOld), Some(RestoreParents)}
    ensures WritesExplain(failed, start.journal, engine.journal)
    ensures SixAccount(failed, start.world, |want|, payload.result, engine.world)
    ensures failed.Some? ==> engine.faults > old(engine.faults)
    ensures engine.faults >= old(engine.faults)
    ensures failed.None? && (forall p :: p in want ==> QuietAt(start.world, want, p)) ==>
              engine.journal == start.journal
  {
    hide *;
    ghost var w, w3, run, c := start.world, engine.world, payload.run, payload.CurrentWork();
    WorkParts(payload);
    ProgressFacts(c, start, m3);
    QueuingParts(w, want, w3, c);
    StagedGrown(w, want, run, w3);
    QuietJournal(want, c, start, m3);
    restored, w5 := map[], w3;
    var ok := RollOutServices(payload, engine, w, want);
    WorkParts(payload);
    ghost var w4, journal4 := engine.world, engine.journal;
    RolloutExplains(start.journal, m3.journal, journal4, ok);
    ProgressSized(c, start, m3, want, w4);
    GrownSame(w3, want, w4);
    GrownMore(w, want, w3, w4);
    if !ok {
      return Some(ApplyServices), restored, w5;
    }
    failed, restored, w5 := ReplaceParents(payload, engine, w, want, w3);
    CalmExplains(start.journal, journal4, engine.journal, failed);
    OpenAccount(failed, w, |want|, payload.result, engine.world);
    GrownMore(w, want, w4, engine.world);
    if failed.None? {
      DroppingWorld(w4, w5, DroppedSet(w, run), c.result, payload.result);
      SixStepsDone(w, want, run, restored, w3, w4, w5, engine.world);
      RestoredCount(restored, run);
      StagedKeeps(w, want, run, w3);
      CountedDone(c, start, m3, w4, w5, engine.world, payload.result);
    }
  }

  lemma OpenAccount(failed: Option<StepName>, w: World, externals: int, result: SyncResult, w': World)
    requires failed in {None, Some(RestoreParents), Some(RemoveOld)}
    ensures failed != Some(RemoveOld) ==> SixAccount(failed, w, externals, result, w')
  {
  }

  // Steps 3 to 6.
  method RunLoaded(
    payload: SyncPayload, engine: Swarm, provider: Provider, config: Config, ghost want: map<string, Want>)
    returns (failed: Option<StepName>, ghost restored: map<string, SecretId>, ghost w3: World, ghost w5: World)
    requires WellFormed(engine.world) && "" !in want && Describes(want, payload.externals, provider.payloads, config)
    requires Loads(payload.services, payload.groups, map[], engine.world)
    requires Unused(payload)
    modifies payload, engine`world, engine`journal, engine`faults, provider`faults
    ensures WellFormed(engine.world) && Safe(old(engine.journal), engine.journal)
    ensures Grown(old(engine.world), want, engine.world) && payload.externals == old(payload.externals)
    ensures failed.None? ==>
              SixSteps(old(engine.world), want, payload.run, restored, w3, w5, engine.world) &&
              Counted(old(engine.world), payload.run, payload.result, |engine.world.secrets|)
    ensures failed.None? ==> NamesFree(old(engine.world), want)
    ensures failed in {None, Some(Process), Some(ApplyServices), Some(RemoveOld), Some(RestoreParents)}
    ensures WritesExplain(failed, old(engine.journal), engine.journal)
    ensures SixAccount(failed, old(engine.world), |want|, payload.result, engine.world)
    ensures failed == Some(Process) ==> engine.world.services == old(engine.world).services
    ensures failed.Some? ==>
              engine.faults + provider.faults > old(engine.faults + provider.faults) ||
              (failed == Some(Process) && !NamesFree(old(engine.world), want))
    ensures ClashesStay(old(engine.world), want, engine.world)
    ensures engine.faults + provider.faults >= old(engine.faults + provider.faults)
    ensures failed.None? && (forall p :: p in want ==> QuietAt(old(engine.world), want, p)) ==>
              engine.journal == old(engine.journal)
  {
    hide *;
    ghost var start := MarkOf(engine, provider);
    restored, w3, w5 := map[], engine.world, engine.world;
    FreshPayload(payload);
    LoadedStart(engine.world, want, payload.services, payload.groups, payload.CurrentWork());
    MarkIs(engine, provider);
    var ok := ProcessExternalSecrets(payload, engine, provider, config, want);
    MarkIs(engine, provider);
    if !ok {
      StoppedFacts(payload.result, want, |want|, start, MarkOf(engine, provider));
      return Some(Process), restored, w3, w5;
    }
    w3 := engine.world;
    ProgressFacts(payload.CurrentWork(), start, MarkOf(engine, provider));
    WorkParts(payload);
    QueuingFacts(start.world, want, w3, payload.CurrentWork());
    failed, restored, w5 := Deliver(payload, engine, want, start, MarkOf(engine, provider));
    NoClashes(start.world, want, engine.world);
  }

  lemma LoadsExplain(
    failed: Option<StepName>, journal: seq<Call>, w: World, externals: int, result: SyncResult)
    requires failed in {None, Some(LoadSwarm), Some(LoadExternal)} && result == SyncResult(0, 0, 0, 0, 0)
    ensures WritesExplain(failed, journal, journal) && SixAccount(failed, w, externals, result, w)
    ensures FailedUpdates(journal, journal) == 0
  {
  }

  lemma ReadsStay(failed: Option<StepName>, lists: int)
    requires failed in {None, Some(Process), Some(ApplyServices), Some(RemoveOld), Some(RestoreParents)}
    requires ReadsExplain(None, 0, lists)
    ensures ReadsExplain(failed, 0, lists)
  {
  }

  // Steps 1 to 6; the first step that fails for good ends the run.
  method RunSteps(
    payload: SyncPayload, engine: Swarm, provider: Provider, config: Config, ghost want: map<string, Want>)
    returns (failed: Option<StepName>, ghost restored: map<string, SecretId>, ghost w3: World, ghost w5: World)
    requires WellFormed(engine.world) && "" !in want && Describes(want, provider.listing, provider.payloads, config)
    requires Unused(payload)
    modifies payload, engine, provider`faults, provider`misses
    ensures WellFormed(engine.world) && Safe(old(engine.journal), engine.journal)
    ensures Grown(old(engine.world), want, engine.world)
    ensures failed.None? ==>
              SixSteps(old(engine.world), want, payload.run, restored, w3, w5, engine.world) &&
              Counted(old(engine.world), payload.run, payload.result, |engine.world.secrets|) &&
              payload.externals == provider.listing
    ensures failed.None? ==> NamesFree(old(engine.world), want) && engine.misses == old(engine.misses)
    ensures failed !in {Some(Reload), Some(Cleanup)}
    ensures Explains(failed, want, old(LogOf(engine, provider)), LogOf(engine, provider))
    ensures SixAccount(failed, old(engine.world), |want|, payload.result, engine.world)
    ensures ClashesStay(old(engine.world), want, engine.world)
    ensures failed.None? && (forall p :: p in want ==> QuietAt(old(engine.world), want, p)) ==>
              engine.journal == old(engine.journal)
  {
    hide *;
    restored, w3, w5 := map[], engine.world, engine.world;
    ghost var from := LogOf(engine, provider);
    LogIs(engine, provider);
    SafeSame(engine.journal);
    GrownSame(engine.world, want, engine.world);
    SameClashes(engine.world, want);
    UnusedResult(payload);
    failed := LoadStates(payload, engine, provider);
    LoadsExplain(failed, engine.journal, engine.world, |want|, payload.result);
    if failed.None? {
      failed, restored, w3, w5 := RunLoaded(payload, engine, provider, config, want);
      ReadsStay(failed, provider.misses - from.lists);
    }
    LogIs(engine, provider);
    ExplainsIs(failed, want, from, LogOf(engine, provider));
  }

  lemma UnusedResult(payload: SyncPayload)
    requires Unused(payload)
    ensures payload.result == SyncResult(0, 0, 0, 0, 0)
  {
  }

  lemma LogIs(engine: Swarm, provider: Provider)
    ensures LogOf(engine, provider) ==
            Log(engine.world, engine.journal, engine.faults + provider.faults, engine.misses, provider.misses)
  {
  }

  lemma ExplainsIs(failed: Option<StepName>, want: map<string, Want>, from: Log, to: Log)
    requires WritesExplain(failed, from.journal, to.journal) && to.faults >= from.faults
    requires ReadsExplain(failed, to.loads - from.loads, to.lists - from.lists)
    requires failed in {Some(LoadSwarm), Some(LoadExternal)} ==> to.world == from.world && to.faults == from.faults
    requires failed == Some(Process) ==> to.faults > from.faults || !NamesFree(from.world, want)
    requires failed == Some(Process) ==> to.world.services == from.world.services
    requires failed in {Some(ApplyServices), Some(RemoveOld), Some(RestoreParents), Some(Cleanup)} ==>
               to.faults > from.faults
    ensures Explains(failed, want, from, to)
  {
  }

  lemma RestoredCount(restored: map<string, SecretId>, run: map<string, Action>)
    requires restored.Keys == RotatedPaths(run)
    ensures |restored| == |RotatedPaths(run)|
  {
  }

  // When there is nothing to do, step 3 wrote nothing and queued nothing.
  lemma QuietJournal(want: map<string, Want>, c: Work, start: Mark, m3: Mark)
    requires Queuing(start.world, want, m3.world, c) && Progress(c, start, m3)
    ensures (forall p :: p in want ==> QuietAt(start.world, want, p)) ==>
              m3.journal == start.journal && c.queue == map[] && DroppedSet(start.world, c.run) == {} &&
              |c.restores| == 0
  {
    if forall p :: p in want ==> QuietAt(start.world, want, p) {
      QuietKept(start.world, want, m3.world, c);
    }
  }

  // What a whole run counts.
  ghost predicate ResultIs(
    result: SyncResult, w: World, want: map<string, Want>, run: map<string, Action>, cleanup: bool)
  {
    Tally(result, run) &&
    result.removedSecrets ==
    |ParentsIn(w, DroppedSet(w, run))| + (if cleanup then |ParentsIn(w, OrphanSet(w, want))| else 0) &&
    result.removedSecretVersions ==
    |ChildrenIn(w, DroppedSet(w, run))| + (if cleanup then |ChildrenIn(w, OrphanSet(w, want))| else 0)
  }

  lemma CountedIs(w: World, want: map<string, Want>, run: map<string, Action>, result: SyncResult, size: int)
    requires Counted(w, run, result, size)
    ensures ResultIs(result, w, want, run, false)
    ensures size == |w.secrets| + result.created + 2 * result.updated - result.removedSecrets -
                    result.removedSecretVersions
  {
  }

  // The conservation law survives the cleanup, complete or not.
  lemma CleanupCounts(
    w: World, run: map<string, Action>, w6: World, w7: World, gone: set<SecretId>, result: SyncResult,
    result': SyncResult)
    requires Counted(w, run, result, |w6.secrets|) && Dropping(w6, w7, gone, result, result')
    ensures |w7.secrets| == |w.secrets| + result'.created + 2 * result'.updated - result'.removedSecrets -
                            result'.removedSecretVersions
    ensures Tally(result', run)
  {
    DroppingCounts(w6, w7, gone, result, result');
  }

  lemma CleanupIs(
    w: World, want: map<string, Want>, run: map<string, Action>, restored: map<string, SecretId>, w3: World, w5: World,
    w6: World, w7: World, result: SyncResult, result': SyncResult)
    requires SixSteps(w, want, run, restored, w3, w5, w6) && Counted(w, run, result, |w6.secrets|)
    requires Dropping(w6, w7, OrphanSet(w6, want), result, result')
    ensures ResultIs(result', w, want, run, true)
  {
    OrphansSame(w, want, run, restored, w3, w5, w6);
    hide *;
    CountsSame(w, w6, OrphanSet(w, want));
    AddCounts(w, want, run, w6, w7, result, result');
  }

  lemma AddCounts(
    w: World, want: map<string, Want>, run: map<string, Action>, w6: World, w7: World, result: SyncResult,
    result': SyncResult)
    requires Counted(w, run, result, |w6.secrets|) && Dropping(w6, w7, OrphanSet(w, want), result, result')
    requires ParentsIn(w6, OrphanSet(w, want)) == ParentsIn(w, OrphanSet(w, want))
    requires ChildrenIn(w6, OrphanSet(w, want)) == ChildrenIn(w, OrphanSet(w, want))
    ensures ResultIs(result', w, want, run, true)
  {
    hide OrphanSet, DroppedSet, ParentsIn, ChildrenIn, CreatedPaths, RotatedPaths, KeptPaths;
  }

  lemma CountsSame(w: World, w': World, ids: set<SecretId>)
    requires forall i :: i in ids ==> i in w.secrets && i in w'.secrets && w'.secrets[i] == w.secrets[i]
    ensures ParentsIn(w', ids) == ParentsIn(w, ids) && ChildrenIn(w', ids) == ChildrenIn(w, ids)
  {
  }

  lemma SixStepsPost(
    w: World, want: map<string, Want>, run: map<string, Action>, restored: map<string, SecretId>, w3: World, w5: World,
    w6: World, cleanup: bool, w7: World)
    requires SixSteps(w, want, run, restored, w3, w5, w6)
    requires w7 == if cleanup then DropSecrets(w6, OrphanSet(w6, want)) else w6
    ensures SyncPost(w, want, run, restored, cleanup, w7)
  {
    assert forall p :: p in run && run[p].Rotated? ==> p in RotatedPaths(run);
    AssembleRun(w, want, run, restored, w3, w5, w6, cleanup, w7);
  }

  lemma QuietOrphans(
    w: World, want: map<string, Want>, run: map<string, Action>, restored: map<string, SecretId>, w3: World, w5: World,
    w6: World)
    requires SixSteps(w, want, run, restored, w3, w5, w6) && forall q :: !Orphan(w, want, q)
    ensures OrphanSet(w6, want) == {}
  {
    OrphansSame(w, want, run, restored, w3, w5, w6);
  }

  lemma ListingCount(
    want: map<string, Want>, listing: map<string, External>, payloads: map<string, string>, config: Config)
    requires Describes(want, listing, payloads, config)
    ensures |want| == |listing|
  {
    var paths := map k | k in listing :: PreparePathOf(listing[k], config);
    forall p ensures p in want.Keys <==> exists k :: k in paths && paths[k] == p {
      if p in want {
        var k :| k in listing && SecretName.PreparePath(listing[k].path, config.delimiter) == p;
        assert k in paths && paths[k] == p;
      }
    }
    InjectiveSize(paths, want.Keys);
    assert paths.Keys == listing.Keys;
    assert |want| == |want.Keys| && |listing| == |listing.Keys| && |paths| == |paths.Keys|;
  }

  function PreparePathOf(e: External, config: Config): string {
    SecretName.PreparePath(e.path, config.delimiter)
  }

  lemma {:induction false} InjectiveSize(m: map<string, string>, range: set<string>)
    requires forall j, k :: j in m && k in m && m[j] == m[k] ==> j == k
    requires forall p :: p in range <==> exists k :: k in m && m[k] == p
    ensures |m| == |range|
    decreases |m|
  {
    if m == map[] {
      assert range == {};
    } else {
      var k :| k in m;
      var m' := m - {k};
      assert m'.Keys == m.Keys - {k};
      forall p ensures p in range - {m[k]} <==> exists j :: j in m' && m'[j] == p {
        if p in range - {m[k]} {
          var j :| j in m && m[j] == p;
          assert j in m' && m'[j] == p;
        }
      }
      assert |m'| == |m'.Keys| && |m| == |m.Keys|;
      InjectiveSize(m', range - {m[k]});
      assert |range| == |range - {m[k]}| + 1;
    }
  }

  lemma QuietAll(w: World, want: map<string, Want>, cleanup: bool)
    ensures Quiet(w, want, cleanup) ==>
              (forall p :: p in want ==> QuietAt(w, want, p)) && (cleanup ==> forall q :: !Orphan(w, want, q))
  {
  }

  lemma QuietClean(
    w: World, want: map<string, Want>, run: map<string, Action>, restored: map<string, SecretId>, w3: World, w5: World,
    w6: World)
    requires SixSteps(w, want, run, restored, w3, w5, w6)
    ensures (forall q :: !Orphan(w, want, q)) ==> OrphanSet(w6, want) == {}
  {
    if forall q :: !Orphan(w, want, q) {
      QuietOrphans(w, want, run, restored, w3, w5, w6);
    }
  }

  lemma AccountsAt(
    failed: Option<StepName>, w: World, want: map<string, Want>, run: map<string, Action>, result: SyncResult,
    w7: World)
    requires failed in {None, Some(Reload), Some(Cleanup)} && Tally(result, run) && run.Keys == want.Keys
    requires |w7.secrets| == |w.secrets| + result.created + 2 * result.updated - result.removedSecrets -
                             result.removedSecretVersions
    ensures Accounts(failed, w, |want|, result, w7)
  {
    TallySum(result, run);
    assert |run| == |run.Keys| && |want| == |want.Keys|;
  }

  lemma AccountsOf(
    failed: Option<StepName>, w: World, externals: int, result: SyncResult, w': World, reported: SyncResult)
    requires failed.Some? && failed !in {Some(Reload), Some(Cleanup)} && SixAccount(failed, w, externals, result, w')
    requires reported == if failed == Some(RestoreParents) then SyncResult(0, 0, 0, 0, 0) else result
    ensures Accounts(failed, w, externals, reported, w')
  {
  }

  // What is left after steps 1 to 6 once some of the orphans are gone.
  ghost predicate Trimmed(
    w: World, want: map<string, Want>, run: map<string, Action>, restored: map<string, SecretId>, delivered: World,
    gone: set<SecretId>, w': World)
  {
    SyncPost(w, want, run, restored, false, delivered) && gone <= OrphanSet(delivered, want) &&
    w' == DropSecrets(delivered, gone)
  }

  lemma TrimmedIs(
    w: World, want: map<string, Want>, run: map<string, Action>, restored: map<string, SecretId>, w3: World, w5: World,
    w6: World, gone: set<SecretId>, w': World)
    requires SixSteps(w, want, run, restored, w3, w5, w6) && gone <= OrphanSet(w6, want) && w' == DropSecrets(w6, gone)
    ensures Trimmed(w, want, run, restored, w6, gone, w')
  {
    hide OrphanSet;
    SixStepsPost(w, want, run, restored, w3, w5, w6, false, w6);
  }

  lemma NothingDropped(w: World)
    ensures DropSecrets(w, {}) == w
  {
  }

  lemma SixStepsKeys(
    w: World, want: map<string, Want>, run: map<string, Action>, restored: map<string, SecretId>, w3: World, w5: World,
    w6: World)
    requires SixSteps(w, want, run, restored, w3, w5, w6)
    ensures run.Keys == want.Keys
  {
  }

  // The end of a run, once steps 1 to 6 went through.
  lemma EndExplains(
    failed: Option<StepName>, cleaned: bool, want: map<string, Want>, from: Log, six: Log, to: Log)
    requires Explains(None, want, from, six) && six.loads == from.loads && six.lists == to.lists
    requires failed in {None, Some(Reload), Some(Cleanup)}
    requires failed == Some(Reload) ==> to == six.(loads := six.loads + 4)
    requires failed != Some(Reload) ==>
               Calm(six.journal, to.journal) && six.loads <= to.loads <= six.loads + 3 && to.faults >= six.faults
    requires failed == Some(Cleanup) || !cleaned ==>
               failed == Some(Reload) || (RemovalFailed(six.journal, to.journal) && to.faults > six.faults)
    requires failed == Some(Cleanup) ==> !cleaned
    requires Safe(from.journal, six.journal)
    ensures Explains(failed, want, from, to) && Safe(from.journal, to.journal)
    ensures failed != Some(Reload) && !cleaned ==> RemovalFailed(from.journal, to.journal)
  {
    if failed != Some(Reload) {
      CalmExplains(from.journal, six.journal, to.journal, failed);
    }
  }

  lemma TallyOf(w: World, run: map<string, Action>, result: SyncResult, size: int)
    requires Counted(w, run, result, size)
    ensures Tally(result, run)
  {
  }

  // One synchronisation. `failed` is the step whose error it returns. `cleaned` says whether step 7 went through or was
  // not asked for; whether the pipeline reports an error of that last step, which has ContinueOnError, is left open.
  // `delivered` is the state after step 6, and `gone` what step 7 removed.
  method Sync(engine: Swarm, provider: Provider, config: Config, ghost want: map<string, Want>)
    returns (failed: Option<StepName>, result: SyncResult, cleaned: bool, ghost run: map<string, Action>,
             ghost restored: map<string, SecretId>, ghost delivered: World, ghost gone: set<SecretId>)
    requires WellFormed(engine.world) && "" !in want && Describes(want, provider.listing, provider.payloads, config)
    modifies engine, provider`faults, provider`misses
    // Whatever fails, the state left behind is one that the next synchronisation can start from.
    ensures WellFormed(engine.world) && Grown(old(engine.world), want, engine.world)
    ensures Ready(old(engine.world), want) ==> Ready(engine.world, want)
    // Whatever fails, no removal is requested for a secret that is in use.
    ensures Safe(old(engine.journal), engine.journal)
    // It ends where it does for a reason: a request failed for good, or names were not free.
    ensures Explains(failed, want, old(LogOf(engine, provider)), LogOf(engine, provider))
    ensures failed.None? && !cleaned ==> RemovalFailed(old(engine.journal), engine.journal)
    // Everything but the cleanup is done when only the cleanup fails.
    ensures failed in {None, Some(Reload), Some(Cleanup)} ==>
              Trimmed(old(engine.world), want, run, restored, delivered, gone, engine.world)
    ensures failed in {Some(Reload), Some(Cleanup)} || (failed.None? && !cleaned) ==> config.cleanupOrphaned
    ensures failed.Some? ==> !cleaned
    ensures failed == Some(Reload) ==> gone == {}
    ensures failed.None? && cleaned ==>
              SyncPost(old(engine.world), want, run, restored, config.cleanupOrphaned, engine.world) &&
              ResultIs(result, old(engine.world), want, run, config.cleanupOrphaned)
    ensures Accounts(failed, old(engine.world), |provider.listing|, result, engine.world)
    // Without a failed request it gets through exactly when the names that it needs are free and different; and
    // while they are not, no later one for the same snapshot does.
    ensures failed in {None, Some(Reload), Some(Cleanup)} ==> NamesFree(old(engine.world), want)
    ensures ClashesStay(old(engine.world), want, engine.world)
    ensures failed.None? && cleaned && Quiet(old(engine.world), want, config.cleanupOrphaned) ==>
              engine.journal == old(engine.journal)
  {
    hide *;
    ghost var w, from := engine.world, LogOf(engine, provider);
    LogIs(engine, provider);
    var payload := new SyncPayload();
    NewPayload(payload);
    ghost var w3, w5;
    failed, restored, w3, w5 := RunSteps(payload, engine, provider, config, want);
    LogIs(engine, provider);
    run, cleaned, delivered, gone, result := payload.run, false, engine.world, {}, payload.result;
    KeepsReady(w, want, engine.world);
    ListingCount(want, provider.listing, provider.payloads, config);
    if failed.Some? {
      if failed == Some(RestoreParents) {
        result := SyncResult(0, 0, 0, 0, 0);
      }
      AccountsOf(failed, w, |want|, payload.result, engine.world, result);
      return;
    }
    ghost var w6, six := engine.world, LogOf(engine, provider);
    CountedIs(w, want, run, result, |w6.secrets|);
    SixStepsKeys(w, want, run, restored, w3, w5, w6);
    TallyOf(w, run, result, |w6.secrets|);
    NothingDropped(w6);
    TrimmedIs(w, want, run, restored, w3, w5, w6, {}, w6);
    if config.cleanupOrphaned {
      var ok, services, groups := LoadWithRetries(engine);
      LogIs(engine, provider);
      if !ok {
        failed := Some(Reload);
        EndExplains(failed, cleaned, want, from, six, LogOf(engine, provider));
        AccountsAt(failed, w, want, run, result, w6);
        return;
      }
      cleaned, result, gone := CleanupOrphanedSecrets(result, engine, services, groups, payload.externals, config, want,
                                                      provider.payloads);
      LogIs(engine, provider);
      CleanupCounts(w, run, w6, engine.world, gone, payload.result, result);
      DroppingGrown(w6, want, engine.world, gone, payload.result, result);
      GrownMore(w, want, w6, engine.world);
      DroppingWorld(w6, engine.world, gone, payload.result, result);
      KeepsReady(w, want, engine.world);
      NoClashes(w, want, engine.world);
      TrimmedIs(w, want, run, restored, w3, w5, w6, gone, engine.world);
      if cleaned {
        CleanupIs(w, want, run, restored, w3, w5, w6, engine.world, payload.result, result);
        SixStepsPost(w, want, run, restored, w3, w5, w6, true, engine.world);
        QuietClean(w, want, run, restored, w3, w5, w6);
      } else if * {
        failed := Some(Cleanup);
      }
    } else {
      cleaned := true;
      CalmSame(engine.journal);
      SixStepsPost(w, want, run, restored, w3, w5, w6, false, w6);
    }
    EndExplains(failed, cleaned, want, from, six, LogOf(engine, provider));
    AccountsAt(failed, w, want, run, result, engine.world);
    QuietAll(w, want, config.cleanupOrphaned);
  }
}
