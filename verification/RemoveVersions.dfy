// Steps 5 and 7: the removal loop (internal/sync/step5_remove_old_secret_versions.go) and the choice of the
// orphaned groups (internal/sync/payload.go, internal/sync/step7_cleanup_orphaned_secrets.go).
module RemoveVersions {
  import opened SecretName
  import opened Docker
  import opened Engine
  import opened Rotation
  import opened Grouping
  import opened Rollout
  import opened Stages
  import opened Payload
  import opened ExternalStorage
  import opened Planning

  // The secrets that one removal asks for among the first `n` versions.
  ghost function TargetIds(r: VersionRemoval, n: nat): set<SecretId>
    requires n <= |r.secret.versions|
  {
    if n == 0 then {}
    else
      var version := r.secret.versions[n - 1];
      TargetIds(r, n - 1) + if version.id == r.secret.id && !r.removeParent then {} else {version.id}
  }

  ghost function Targets(removals: seq<VersionRemoval>, n: nat): set<SecretId>
    requires n <= |removals|
  {
    if n == 0 then {} else Targets(removals, n - 1) + TargetIds(removals[n - 1], |removals[n - 1].secret.versions|)
  }

  ghost function ParentsIn(w: World, ids: set<SecretId>): set<SecretId> {
    set i | i in ids && i in w.secrets && w.secrets[i].name == w.secrets[i].logicalPath
  }

  ghost function ChildrenIn(w: World, ids: set<SecretId>): set<SecretId> {
    set i | i in ids && i in w.secrets && w.secrets[i].name != w.secrets[i].logicalPath
  }

  // Exactly the secrets of `gone` were removed, and each that existed was counted once.
  ghost predicate Dropping(w: World, w': World, gone: set<SecretId>, result: SyncResult, result': SyncResult) {
    w' == DropSecrets(w, gone) &&
    result' == result.(removedSecrets := result.removedSecrets + |ParentsIn(w, gone)|,
    removedSecretVersions := result.removedSecretVersions + |ChildrenIn(w, gone)|)
  }

  // The group's id tells its parent from its versions.
  ghost predicate IdsMatch(w: World, secret: GroupView) {
    forall k :: 0 <= k < |secret.versions| && secret.versions[k].id in w.secrets ==>
      var s := w.secrets[secret.versions[k].id];
      secret.versions[k].id == secret.id <==> s.name == s.logicalPath
  }

  lemma DroppingMore(
    w: World, w': World, w'': World, gone: set<SecretId>, result: SyncResult, result': SyncResult, result'': SyncResult,
    secret: GroupView, k: nat)
    requires Dropping(w, w', gone, result, result') && k < |secret.versions| && IdsMatch(w, secret)
    requires w'' == DropSecrets(w', {secret.versions[k].id})
    requires result'' ==
             if secret.versions[k].id !in w'.secrets then result'
             else if secret.versions[k].id == secret.id then
               result'.(removedSecrets := result'.removedSecrets + 1)
             else result'.(removedSecretVersions := result'.removedSecretVersions + 1)
    ensures Dropping(w, w'', gone + {secret.versions[k].id}, result, result'')
  {
    var id := secret.versions[k].id;
    assert w.secrets - gone - {id} == w.secrets - (gone + {id});
    var parents, children := ParentsIn(w, gone), ChildrenIn(w, gone);
    if id !in w'.secrets {
      assert ParentsIn(w, gone + {id}) == parents && ChildrenIn(w, gone + {id}) == children;
    } else if id == secret.id {
      assert ParentsIn(w, gone + {id}) == parents + {id} && ChildrenIn(w, gone + {id}) == children;
    } else {
      assert ParentsIn(w, gone + {id}) == parents && ChildrenIn(w, gone + {id}) == children + {id};
    }
  }

  // Every removed secret is counted exactly once.
  lemma DroppingCounts(w: World, w': World, gone: set<SecretId>, result: SyncResult, result': SyncResult)
    requires Dropping(w, w', gone, result, result')
    ensures |w'.secrets| + result'.removedSecrets + result'.removedSecretVersions ==
            |w.secrets| + result.removedSecrets + result.removedSecretVersions
  {
    var parents, children := ParentsIn(w, gone), ChildrenIn(w, gone);
    assert parents !! children && |parents + children| == |parents| + |children|;
    assert w.secrets.Keys == w'.secrets.Keys + (parents + children);
    assert w'.secrets.Keys !! parents + children;
    assert |w.secrets.Keys| == |w'.secrets.Keys| + |parents + children|;
    assert |w.secrets| == |w.secrets.Keys| && |w'.secrets| == |w'.secrets.Keys|;
  }

  lemma DroppingGrown(
    w: World, want: map<string, Want>, w': World, gone: set<SecretId>, result: SyncResult, result': SyncResult)
    requires Dropping(w, w', gone, result, result')
    ensures Grown(w, want, w')
  {
  }

  ghost predicate NoneInUse(w: World, ids: set<SecretId>) {
    forall i :: i in ids ==> !InUse(w, i)
  }

  lemma DropOne(w: World, w': World, gone: set<SecretId>, ids: set<SecretId>, id: SecretId)
    requires w' == DropSecrets(w, gone) && WellFormed(w') && NoneInUse(w, ids) && id in ids
    ensures !InUse(w', id) && WellFormed(DropSecrets(w', {id}))
    ensures id !in w'.secrets ==> DropSecrets(w', {id}) == w'
  {
  }

  lemma NoDrop(w: World, result: SyncResult)
    ensures Dropping(w, w, {}, result, result)
  {
  }

  lemma CalmRemoval(before: seq<Call>, after: seq<Call>, call: Call)
    requires Calm(before, after) && call.RemoveCall? && !call.inUse
    ensures Calm(before, after + [call])
    ensures call.outcome == Fault ==> RemovalFailed(before, after + [call])
  {
  }

  lemma TargetIdsMore(r: VersionRemoval, n: nat)
    requires n < |r.secret.versions|
    ensures var version := r.secret.versions[n];
            TargetIds(r, n + 1) ==
            TargetIds(r, n) + if version.id == r.secret.id && !r.removeParent then {} else {version.id}
  {
  }

  lemma TargetIdsUpTo(r: VersionRemoval, n: nat, m: nat)
    requires n <= m <= |r.secret.versions|
    ensures TargetIds(r, n) <= TargetIds(r, m)
  {
  }

  // One removal request. A secret that is not found is not counted.
  method RemoveVersion(
    result: SyncResult, engine: Swarm, secret: GroupView, k: nat, ghost w: World, ghost gone: set<SecretId>,
    ghost result0: SyncResult, ghost journal: seq<Call>, ghost ids: set<SecretId>)
    returns (ok: bool, result': SyncResult)
    requires k < |secret.versions| && IdsMatch(w, secret)
    requires Dropping(w, engine.world, gone, result0, result) && WellFormed(engine.world)
    requires NoneInUse(w, ids) && secret.versions[k].id in ids && Calm(journal, engine.journal)
    modifies engine`world, engine`journal, engine`faults
    ensures ok ==> Dropping(w, engine.world, gone + {secret.versions[k].id}, result0, result')
    ensures !ok ==> engine.world == old(engine.world) && result' == result && engine.faults > old(engine.faults)
    ensures !ok ==> RemovalFailed(journal, engine.journal)
    ensures ok ==> engine.faults == old(engine.faults)
    ensures WellFormed(engine.world) && Calm(journal, engine.journal)
  {
    hide *;
    var id := secret.versions[k].id;
    ghost var w', before := engine.world, engine.journal;
    DroppingWorld(w, w', gone, result0, result);
    DropOne(w, w', gone, ids, id);
    var removal := engine.SecretRemove(id);
    CalmRemoval(journal, before, engine.journal[|before|]);
    if removal.RemoveFailed? {
      return false, result;
    }
    if removal.NotFound? {
      result' := result;
    } else if id == secret.id {
      result' := result.(removedSecrets := result.removedSecrets + 1);
    } else {
      result' := result.(removedSecretVersions := result.removedSecretVersions + 1);
    }
    DroppingMore(w, w', engine.world, gone, result0, result, result', secret, k);
    return true, result';
  }

  lemma DroppingWorld(w: World, w': World, gone: set<SecretId>, result: SyncResult, result': SyncResult)
    requires Dropping(w, w', gone, result, result')
    ensures w' == DropSecrets(w, gone)
  {
  }

  // All versions of one removal.
  method RemoveGroup(
    result: SyncResult, engine: Swarm, r: VersionRemoval, ghost w: World, ghost gone: set<SecretId>,
    ghost result0: SyncResult, ghost journal: seq<Call>, ghost ids: set<SecretId>)
    returns (ok: bool, result': SyncResult, ghost gone': set<SecretId>)
    requires IdsMatch(w, r.secret) && TargetIds(r, |r.secret.versions|) <= ids && NoneInUse(w, ids)
    requires Dropping(w, engine.world, gone, result0, result) && WellFormed(engine.world)
    requires Calm(journal, engine.journal)
    modifies engine`world, engine`journal, engine`faults
    ensures Dropping(w, engine.world, gone', result0, result')
    ensures gone <= gone' <= gone + TargetIds(r, |r.secret.versions|)
    ensures ok ==> gone' == gone + TargetIds(r, |r.secret.versions|)
    ensures ok ==> engine.faults == old(engine.faults)
    ensures !ok ==> engine.faults > old(engine.faults) && RemovalFailed(journal, engine.journal)
    ensures WellFormed(engine.world) && Calm(journal, engine.journal)
    ensures TargetIds(r, |r.secret.versions|) == {} ==> engine.journal == old(engine.journal)
  {
    hide *;
    result', gone' := result, gone;
    NoTargetIds(r);
    for k := 0 to |r.secret.versions|
      invariant gone' == gone + TargetIds(r, k)
      invariant Dropping(w, engine.world, gone', result0, result')
      invariant WellFormed(engine.world) && Calm(journal, engine.journal)
      invariant engine.faults == old(engine.faults)
      invariant TargetIds(r, k) == {} ==> engine.journal == old(engine.journal)
    {
      var version := r.secret.versions[k];
      TargetIdsMore(r, k);
      TargetIdsUpTo(r, k, |r.secret.versions|);
      TargetIdsUpTo(r, k + 1, |r.secret.versions|);
      if version.id == r.secret.id && !r.removeParent {
        continue;
      }
      assert version.id in TargetIds(r, k + 1);
      ok, result' := RemoveVersion(result', engine, r.secret, k, w, gone', result0, journal, ids);
      if !ok {
        return;
      }
      gone' := gone' + {version.id};
    }
    ok := true;
  }

  lemma NoTargetIds(r: VersionRemoval)
    ensures TargetIds(r, 0) == {}
  {
  }

  lemma TargetsMore(removals: seq<VersionRemoval>, n: nat)
    requires n < |removals|
    ensures Targets(removals, n + 1) ==
            Targets(removals, n) + TargetIds(removals[n], |removals[n].secret.versions|)
    ensures Targets(removals, 0) == {}
  {
  }

  lemma TargetsUpTo(removals: seq<VersionRemoval>, n: nat, m: nat)
    requires n <= m <= |removals|
    ensures Targets(removals, n) <= Targets(removals, m)
    ensures Targets(removals, 0) == {}
  {
  }

  // The removal loop: it asks for exactly the targets, and stops at the first error other than not-found.
  method RemoveOldVersions(result: SyncResult, engine: Swarm, removals: seq<VersionRemoval>)
    returns (ok: bool, result': SyncResult, ghost gone: set<SecretId>)
    requires WellFormed(engine.world) && NoneInUse(engine.world, Targets(removals, |removals|))
    requires forall k :: 0 <= k < |removals| ==> IdsMatch(engine.world, removals[k].secret)
    modifies engine`world, engine`journal, engine`faults
    ensures Dropping(old(engine.world), engine.world, gone, result, result')
    ensures gone <= Targets(removals, |removals|) && (ok ==> gone == Targets(removals, |removals|))
    ensures WellFormed(engine.world) && Calm(old(engine.journal), engine.journal)
    ensures ok ==> engine.faults == old(engine.faults)
    ensures !ok ==> engine.faults > old(engine.faults) && RemovalFailed(old(engine.journal), engine.journal)
    ensures Targets(removals, |removals|) == {} ==> engine.journal == old(engine.journal)
  {
    hide *;
    ghost var w, journal, ids := engine.world, engine.journal, Targets(removals, |removals|);
    result', gone := result, {};
    NoDrop(w, result);
    CalmSame(journal);
    TargetsUpTo(removals, 0, |removals|);
    for n := 0 to |removals|
      invariant gone == Targets(removals, n)
      invariant Dropping(w, engine.world, gone, result, result')
      invariant WellFormed(engine.world) && Calm(journal, engine.journal)
      invariant engine.faults == old(engine.faults)
      invariant Targets(removals, n) == {} ==> engine.journal == journal
    {
      TargetsMore(removals, n);
      TargetsUpTo(removals, n, |removals|);
      TargetsUpTo(removals, n + 1, |removals|);
      ok, result', gone := RemoveGroup(result', engine, removals[n], w, gone, result, journal, ids);
      if !ok {
        return;
      }
    }
    ok := true;
  }

  // ---------------------------------------------------------------- what the loop is asked to remove

  ghost predicate IsTarget(r: VersionRemoval, i: SecretId) {
    HasVersion(r.secret.versions, i) && (r.removeParent || i != r.secret.id)
  }

  lemma {:induction false} TargetIdsExact(r: VersionRemoval, n: nat, i: SecretId)
    requires n <= |r.secret.versions|
    ensures i in TargetIds(r, n) <==>
            (exists m :: 0 <= m < n && r.secret.versions[m].id == i) && (r.removeParent || i != r.secret.id)
  {
    if n > 0 {
      TargetIdsExact(r, n - 1, i);
    }
  }

  lemma {:induction false} TargetsExact(removals: seq<VersionRemoval>, n: nat, i: SecretId)
    requires n <= |removals|
    ensures i in Targets(removals, n) <==> exists k :: 0 <= k < n && IsTarget(removals[k], i)
  {
    if n > 0 {
      TargetsExact(removals, n - 1, i);
      TargetIdsExact(removals[n - 1], |removals[n - 1].secret.versions|, i);
      assert i in TargetIds(removals[n - 1], |removals[n - 1].secret.versions|) <==> IsTarget(removals[n - 1], i);
    }
  }

  lemma MirrorIdsMatch(w: World, w': World, g: GroupView, p: string)
    requires Mirrors(g, w, p) && NamesUnique(w) && KeepsSecrets(w, w')
    ensures IdsMatch(w', g)
  {
  }

  lemma TargetIsDropped(
    w: World, run: map<string, Action>, groups: map<string, GroupView>, services: seq<LoadedService>, r: VersionRemoval,
    i: SecretId)
    requires Loads(services, groups, run, w) && NamesUnique(w) && RemovalFits(w, run, groups, r)
    ensures IsTarget(r, i) ==> Dropped(w, run, i)
    ensures InGroup(w, r.secret.path, i) && Dropped(w, run, i) ==> IsTarget(r, i)
  {
  }

  // Step 5 is asked to remove exactly what the run drops.
  lemma TargetsAreDropped(
    w: World, run: map<string, Action>, groups: map<string, GroupView>, services: seq<LoadedService>,
    removals: seq<VersionRemoval>)
    requires Loads(services, groups, run, w) && NamesUnique(w) && RemovalsFit(w, run, groups, removals)
    ensures Targets(removals, |removals|) == DroppedSet(w, run)
  {
    forall i ensures i in Targets(removals, |removals|) <==> i in DroppedSet(w, run) {
      TargetsExact(removals, |removals|, i);
      if i in Targets(removals, |removals|) {
        var k :| 0 <= k < |removals| && IsTarget(removals[k], i);
        TargetIsDropped(w, run, groups, services, removals[k], i);
      }
      if i in DroppedSet(w, run) {
        var p := w.secrets[i].logicalPath;
        assert InGroup(w, p, i);
        assert NeedsRemoval(w, run, p);
        var k :| 0 <= k < |removals| && removals[k].secret.path == p;
        TargetIsDropped(w, run, groups, services, removals[k], i);
      }
    }
  }

  // ---------------------------------------------------------------- the choice of the orphans

  // The paths of the external secrets are the wanted paths.
  method ExternalSecretPaths(
    externals: map<string, External>, config: Config, ghost want: map<string, Want>,
    ghost payloads: map<string, string>)
    returns (paths: set<string>)
    requires Describes(want, externals, payloads, config)
    ensures paths == want.Keys
  {
    paths := {};
    var todo := externals.Keys;
    while todo != {}
      invariant todo <= externals.Keys && paths <= want.Keys
      invariant forall k :: k in externals && k !in todo ==> PreparePath(externals[k].path, config.delimiter) in paths
      decreases todo
    {
      assert exists k :: k in todo;
      var k :| k in todo;
      todo := todo - {k};
      paths := paths + {PreparePath(externals[k].path, config.delimiter)};
    }
  }

  // Records the path of one group for each of its secrets.
  method WithPath(paths: map<SecretId, string>, g: GroupView, ghost w: World) returns (paths': map<SecretId, string>)
    requires Mirrors(g, w, g.path)
    ensures forall i :: i in paths' <==> i in paths || InGroup(w, g.path, i)
    ensures forall i :: i in paths' ==> paths'[i] == if InGroup(w, g.path, i) then g.path else paths[i]
  {
    paths' := paths;
    for k := 0 to |g.versions|
      invariant forall i :: i in paths' <==> i in paths || exists m :: 0 <= m < k && g.versions[m].id == i
      invariant forall i :: i in paths' ==>
                  paths'[i] == if exists m :: 0 <= m < k && g.versions[m].id == i then g.path else paths[i]
    {
      paths' := paths'[g.versions[k].id := g.path];
    }
    HasVersionExact(g, w, g.path);
    assert forall i :: HasVersion(g.versions, i) <==> exists m :: 0 <= m < |g.versions| && g.versions[m].id == i;
  }

  ghost predicate PathsById(paths: map<SecretId, string>, w: World, done: set<string>) {
    (forall i :: i in paths <==> i in w.secrets && w.secrets[i].logicalPath in done) &&
    (forall i :: i in paths ==> paths[i] == w.secrets[i].logicalPath)
  }

  lemma SecretPathsMore(
    paths: map<SecretId, string>, w: World, done: set<string>, p: string, paths': map<SecretId, string>)
    requires PathsById(paths, w, done)
    requires forall i :: i in paths' <==> i in paths || InGroup(w, p, i)
    requires forall i :: i in paths' ==> paths'[i] == if InGroup(w, p, i) then p else paths[i]
    ensures PathsById(paths', w, done + {p})
  {
  }

  // The path of each secret that belongs to a group, by secret id.
  method SecretPathById(groups: map<string, GroupView>, ghost w: World) returns (paths: map<SecretId, string>)
    requires forall p :: p in groups ==> groups[p].path == p && Mirrors(groups[p], w, p)
    ensures PathsById(paths, w, groups.Keys)
  {
    hide InGroup, Mirrors;
    paths := map[];
    var todo := groups.Keys;
    ghost var done := {};
    assert PathsById(paths, w, done);
    hide PathsById;
    while todo != {}
      invariant todo + done == groups.Keys && todo !! done && PathsById(paths, w, done)
      decreases todo
    {
      assert exists p :: p in todo;
      var p :| p in todo;
      ghost var before := paths;
      paths := WithPath(paths, groups[p], w);
      SecretPathsMore(before, w, done, p, paths);
      todo, done := todo - {p}, done + {p};
    }
  }

  ghost predicate UsedUpTo(w: World, services: seq<LoadedService>, n: int, p: string)
    requires n <= |services|
  {
    exists j, k :: 0 <= j < n && 0 <= k < |services[j].refs| && InGroup(w, p, services[j].refs[k].secretId)
  }

  lemma UsedByListing(w: World, services: seq<LoadedService>, p: string)
    requires ListsServices(services, w)
    ensures UsedUpTo(w, services, |services|, p) <==> Used(w, p)
  {
  }

  // The paths that one service refers to.
  method PathsOf(refs: seq<Ref>, pathById: map<SecretId, string>) returns (paths: set<string>)
    ensures forall p :: p in paths <==>
              exists k :: 0 <= k < |refs| && refs[k].secretId in pathById && pathById[refs[k].secretId] == p
  {
    paths := {};
    for k := 0 to |refs|
      invariant forall p :: p in paths <==>
                  exists m :: 0 <= m < k && refs[m].secretId in pathById && pathById[refs[m].secretId] == p
    {
      if refs[k].secretId in pathById {
        paths := paths + {pathById[refs[k].secretId]};
      }
    }
  }

  method UsedSecretPaths(services: seq<LoadedService>, groups: map<string, GroupView>, ghost w: World)
    returns (paths: set<string>)
    requires ListsServices(services, w)
    requires forall p :: p in groups ==> groups[p].path == p && Mirrors(groups[p], w, p)
    ensures forall p :: p in paths <==> p in groups && Used(w, p)
  {
    var pathById := SecretPathById(groups, w);
    paths := {};
    for n := 0 to |services|
      invariant forall p :: p in paths <==> p in groups && UsedUpTo(w, services, n, p)
    {
      var found := PathsOf(services[n].refs, pathById);
      ghost var before := paths;
      paths := paths + found;
      forall p ensures p in paths <==> p in groups && UsedUpTo(w, services, n + 1, p) {
        FoundIsUsed(w, services, n, groups, pathById, found, p);
      }
    }
    forall p ensures UsedUpTo(w, services, |services|, p) <==> Used(w, p) {
      UsedByListing(w, services, p);
    }
  }

  lemma FoundIsUsed(
    w: World, services: seq<LoadedService>, n: nat, groups: map<string, GroupView>, pathById: map<SecretId, string>,
    found: set<string>, p: string)
    requires n < |services|
    requires PathsById(pathById, w, groups.Keys)
    requires p in found <==>
             exists k :: 0 <= k < |services[n].refs| && services[n].refs[k].secretId in pathById &&
                         pathById[services[n].refs[k].secretId] == p
    ensures p in groups && UsedUpTo(w, services, n + 1, p) <==>
            (p in groups && UsedUpTo(w, services, n, p)) || p in found
  {
  }

  ghost predicate OrphanRemoval(
    w: World, want: map<string, Want>, groups: map<string, GroupView>, r: VersionRemoval)
  {
    r.removeParent && r.secret.path in groups && groups[r.secret.path] == r.secret && Orphan(w, want, r.secret.path)
  }

  // The removals name exactly the orphans outside `todo`.
  ghost predicate OrphansFound(
    w: World, want: map<string, Want>, groups: map<string, GroupView>, removals: seq<VersionRemoval>,
    todo: set<string>)
  {
    (forall k :: 0 <= k < |removals| ==> OrphanRemoval(w, want, groups, removals[k])) &&
    (forall p :: Orphan(w, want, p) && p !in todo ==> HasRemoval(removals, p))
  }

  lemma OrphanAppended(
    w: World, want: map<string, Want>, groups: map<string, GroupView>, removals: seq<VersionRemoval>,
    todo: set<string>, p: string)
    requires OrphansFound(w, want, groups, removals, todo) && p in groups && groups[p].path == p
    ensures Orphan(w, want, p) ==>
              OrphansFound(w, want, groups, removals + [VersionRemoval(groups[p], true)], todo - {p})
    ensures !Orphan(w, want, p) ==> OrphansFound(w, want, groups, removals, todo - {p})
  {
    var removals' := removals + [VersionRemoval(groups[p], true)];
    assert removals'[|removals|].secret.path == p;
    forall q | HasRemoval(removals, q) ensures HasRemoval(removals', q) {
      var k :| 0 <= k < |removals| && removals[k].secret.path == q;
      assert removals'[k].secret.path == q;
    }
  }

  lemma OrphanTest(
    services: seq<LoadedService>, groups: map<string, GroupView>, w: World, want: map<string, Want>, p: string,
    usedPaths: set<string>)
    requires Loads(services, groups, map[], w)
    requires forall q :: q in usedPaths <==> q in groups && Used(w, q)
    ensures Orphan(w, want, p) ==> p in groups
    ensures p in groups ==>
              groups[p].path == p && (Orphan(w, want, p) <==> groups[p].managed && p !in usedPaths && p !in want)
  {
  }

  // The managed groups that no service refers to and no external path names.
  method OrphanedManagedSecretRemovals(
    services: seq<LoadedService>, groups: map<string, GroupView>, externals: map<string, External>, config: Config,
    ghost w: World, ghost want: map<string, Want>, ghost payloads: map<string, string>)
    returns (removals: seq<VersionRemoval>)
    requires Loads(services, groups, map[], w) && Describes(want, externals, payloads, config)
    ensures OrphansFound(w, want, groups, removals, {})
  {
    var usedPaths := UsedSecretPaths(services, groups, w);
    var externalPaths := ExternalSecretPaths(externals, config, want, payloads);
    removals := [];
    var todo := groups.Keys;
    forall p ensures Orphan(w, want, p) ==> p in groups {
      OrphanTest(services, groups, w, want, p, usedPaths);
    }
    assert OrphansFound(w, want, groups, removals, todo);
    hide *;
    while todo != {}
      invariant todo <= groups.Keys && OrphansFound(w, want, groups, removals, todo)
      decreases todo
    {
      assert exists p :: p in todo;
      var p :| p in todo;
      todo := todo - {p};
      OrphanTest(services, groups, w, want, p, usedPaths);
      OrphanAppended(w, want, groups, removals, todo + {p}, p);
      assert todo + {p} - {p} == todo;
      if !groups[p].managed || p in usedPaths || p in externalPaths {
        continue;
      }
      removals := removals + [VersionRemoval(groups[p], true)];
    }
  }

  lemma OrphanTarget(
    w: World, want: map<string, Want>, groups: map<string, GroupView>, services: seq<LoadedService>, r: VersionRemoval,
    i: SecretId)
    requires Loads(services, groups, map[], w) && OrphanRemoval(w, want, groups, r)
    ensures IsTarget(r, i) <==> InGroup(w, r.secret.path, i)
    ensures Orphan(w, want, r.secret.path)
  {
  }

  lemma InOrphanSet(w: World, want: map<string, Want>, i: SecretId)
    ensures i in OrphanSet(w, want) <==> i in w.secrets && Orphan(w, want, w.secrets[i].logicalPath)
  {
  }

  lemma GroupPath(w: World, p: string, i: SecretId)
    ensures InGroup(w, p, i) <==> i in w.secrets && w.secrets[i].logicalPath == p
  {
  }

  // Step 7 is asked to remove exactly the orphaned groups, whole.
  lemma TargetsAreOrphans(
    w: World, want: map<string, Want>, groups: map<string, GroupView>, services: seq<LoadedService>,
    removals: seq<VersionRemoval>)
    requires Loads(services, groups, map[], w) && OrphansFound(w, want, groups, removals, {})
    ensures Targets(removals, |removals|) == OrphanSet(w, want)
  {
    hide *;
    forall i ensures i in Targets(removals, |removals|) <==> i in OrphanSet(w, want) {
      TargetsExact(removals, |removals|, i);
      InOrphanSet(w, want, i);
      if i in Targets(removals, |removals|) {
        var k :| 0 <= k < |removals| && IsTarget(removals[k], i);
        FoundAt(w, want, groups, removals, k);
        OrphanTarget(w, want, groups, services, removals[k], i);
        GroupPath(w, removals[k].secret.path, i);
      }
      if i in OrphanSet(w, want) {
        var k := FoundFor(w, want, groups, removals, w.secrets[i].logicalPath);
        OrphanTarget(w, want, groups, services, removals[k], i);
        GroupPath(w, removals[k].secret.path, i);
      }
    }
  }

  lemma FoundAt(
    w: World, want: map<string, Want>, groups: map<string, GroupView>, removals: seq<VersionRemoval>, k: nat)
    requires OrphansFound(w, want, groups, removals, {}) && k < |removals|
    ensures OrphanRemoval(w, want, groups, removals[k])
  {
  }

  lemma FoundFor(
    w: World, want: map<string, Want>, groups: map<string, GroupView>, removals: seq<VersionRemoval>, p: string)
    returns (k: nat)
    requires OrphansFound(w, want, groups, removals, {}) && Orphan(w, want, p)
    ensures k < |removals| && removals[k].secret.path == p && OrphanRemoval(w, want, groups, removals[k])
  {
    hide Orphan;
    assert HasRemoval(removals, p);
    k :| 0 <= k < |removals| && removals[k].secret.path == p;
  }

  lemma OrphansSafe(
    w: World, want: map<string, Want>, groups: map<string, GroupView>, services: seq<LoadedService>,
    removals: seq<VersionRemoval>)
    requires WellFormed(w) && Loads(services, groups, map[], w) && OrphansFound(w, want, groups, removals, {})
    ensures NoneInUse(w, Targets(removals, |removals|))
    ensures Targets(removals, |removals|) == OrphanSet(w, want)
    ensures forall k :: 0 <= k < |removals| ==> IdsMatch(w, removals[k].secret)
  {
    TargetsAreOrphans(w, want, groups, services, removals);
    forall i | i in OrphanSet(w, want) ensures !InUse(w, i) {
      OrphanUnused(w, want, i);
    }
    forall k | 0 <= k < |removals| ensures IdsMatch(w, removals[k].secret) {
      MirrorIdsMatch(w, w, removals[k].secret, removals[k].secret.path);
    }
  }

  // Step 7.
  method CleanupOrphanedSecrets(
    result: SyncResult, engine: Swarm, services: seq<LoadedService>, groups: map<string, GroupView>,
    externals: map<string, External>, config: Config, ghost want: map<string, Want>,
    ghost payloads: map<string, string>)
    returns (ok: bool, result': SyncResult, ghost gone: set<SecretId>)
    requires WellFormed(engine.world) && Loads(services, groups, map[], engine.world)
    requires Describes(want, externals, payloads, config)
    modifies engine`world, engine`journal, engine`faults
    ensures Dropping(old(engine.world), engine.world, gone, result, result')
    ensures gone <= OrphanSet(old(engine.world), want) && (ok ==> gone == OrphanSet(old(engine.world), want))
    ensures WellFormed(engine.world) && Calm(old(engine.journal), engine.journal)
    ensures ok ==> engine.faults == old(engine.faults)
    ensures !ok ==> engine.faults > old(engine.faults) && RemovalFailed(old(engine.journal), engine.journal)
    ensures OrphanSet(old(engine.world), want) == {} ==> engine.journal == old(engine.journal)
  {
    var removals := OrphanedManagedSecretRemovals(services, groups, externals, config, engine.world, want, payloads);
    OrphansSafe(engine.world, want, groups, services, removals);
    hide *;
    if |removals| == 0 {
      TargetsUpTo(removals, 0, 0);
      NoDrop(engine.world, result);
      CalmSame(engine.journal);
      return true, result, {};
    }
    ok, result', gone := RemoveOldVersions(result, engine, removals);
  }

  // ---------------------------------------------------------------- step 5

  lemma DroppedSafe(
    w: World, want: map<string, Want>, run: map<string, Action>, groups: map<string, GroupView>,
    services: seq<LoadedService>, removals: seq<VersionRemoval>, w3: World, w4: World)
    requires WellFormed(w) && Staged(w, want, run, w3) && RunFresh(w, run) && Moved(w, want, run, w4)
    requires Loads(services, groups, run, w) && RemovalsFit(w, run, groups, removals) && w4.secrets == w3.secrets
    ensures NoneInUse(w4, Targets(removals, |removals|))
    ensures Targets(removals, |removals|) == DroppedSet(w, run)
    ensures forall k :: 0 <= k < |removals| ==> IdsMatch(w4, removals[k].secret)
  {
    TargetsAreDropped(w, run, groups, services, removals);
    assert forall p :: p in run ==> Acted(w, want, p, run[p], w3);
    forall i | i in DroppedSet(w, run) ensures !InUse(w4, i) {
      DroppedUnused(w, want, run, w4, i);
    }
    forall k | 0 <= k < |removals| ensures IdsMatch(w4, removals[k].secret) {
      assert RemovalFits(w, run, groups, removals[k]);
      MirrorIdsMatch(w, w4, removals[k].secret, removals[k].secret.path);
    }
  }
}
