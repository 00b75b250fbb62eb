// Step 3: create what is missing, create new versions, and queue what the later steps have to do
// (internal/sync/step3_process_secrets.go).
module ProcessSecrets {
  import opened Wrappers
  import opened SecretName
  import opened Docker
  import opened Engine
  import opened Rotation
  import opened Rollout
  import opened Payload
  import opened ExternalStorage
  import opened Planning

  // ---------------------------------------------------------------- the rollout queue

  method ReferenceUsesSecret(r: Ref, secret: GroupView) returns (uses: bool)
    ensures uses <==> Uses(r, secret)
  {
    if r.secretName == secret.path {
      return true;
    }
    for k := 0 to |secret.versions|
      invariant forall j :: 0 <= j < k ==> secret.versions[j].id != r.secretId
    {
      if secret.versions[k].id == r.secretId {
        return true;
      }
    }
    return false;
  }

  // The references of one service.
  method EnqueueReferences(
    payload: SyncPayload, service: LoadedService, secret: GroupView, skip: Option<SecretId>, replacement: Replacement)
    requires payload.QueueValid() && payload.RefsLoaded() && service in payload.services
    modifies payload`tasks, payload`order, payload`queue, payload`position, payload.tasks.Values
    ensures payload.QueueValid() && payload.RefsLoaded()
    ensures payload.queue ==
            QueueReferences(old(payload.queue), service.id, service.refs, secret, skip, replacement)
    ensures fresh(payload.tasks.Values - old(payload.tasks.Values))
  {
    hide *;
    var refs := service.refs;
    ReferencesNone(payload.queue, service.id, refs, secret, skip, replacement);
    for k := 0 to |refs|
      invariant payload.QueueValid() && payload.RefsLoaded()
      invariant payload.queue ==
                QueueReferences(old(payload.queue), service.id, refs[..k], secret, skip, replacement)
      invariant fresh(payload.tasks.Values - old(payload.tasks.Values))
    {
      ReferencesMore(old(payload.queue), service.id, refs, k, secret, skip, replacement);
      var uses := ReferenceUsesSecret(refs[k], secret);
      if !uses || skip == Some(refs[k].secretId) {
        continue;
      }
      payload.Enqueue(service, refs[k].secretId, replacement);
    }
    assert refs[..|refs|] == refs;
  }

  lemma ReferencesNone(
    q: Queue, s: ServiceId, refs: seq<Ref>, g: GroupView, skip: Option<SecretId>, replacement: Replacement)
    ensures QueueReferences(q, s, refs[..0], g, skip, replacement) == q
  {
  }

  lemma ReferencesMore(
    q: Queue, s: ServiceId, refs: seq<Ref>, k: nat, g: GroupView, skip: Option<SecretId>, replacement: Replacement)
    requires k < |refs|
    ensures QueueReferences(q, s, refs[..k + 1], g, skip, replacement) ==
            var q' := QueueReferences(q, s, refs[..k], g, skip, replacement);
            if Uses(refs[k], g) && skip != Some(refs[k].secretId) then Enqueued(q', s, refs[k].secretId, replacement)
            else q'
  {
    hide Uses;
    assert refs[..k + 1][..k] == refs[..k];
  }

  method EnqueueServices(
    payload: SyncPayload, secret: GroupView, skip: Option<SecretId>, replacement: Replacement)
    requires payload.QueueValid() && payload.RefsLoaded()
    modifies payload`tasks, payload`order, payload`queue, payload`position, payload.tasks.Values
    ensures payload.QueueValid() && payload.RefsLoaded()
    ensures payload.queue == QueueServices(old(payload.queue), payload.services, secret, skip, replacement)
    ensures fresh(payload.tasks.Values - old(payload.tasks.Values))
  {
    hide *;
    ServicesNone(payload.queue, payload.services, secret, skip, replacement);
    for n := 0 to |payload.services|
      invariant payload.QueueValid() && payload.RefsLoaded()
      invariant payload.queue == QueueServices(old(payload.queue), payload.services[..n], secret, skip, replacement)
      invariant fresh(payload.tasks.Values - old(payload.tasks.Values))
    {
      ServicesMore(old(payload.queue), payload.services, n, secret, skip, replacement);
      EnqueueReferences(payload, payload.services[n], secret, skip, replacement);
    }
    assert payload.services[..|payload.services|] == payload.services;
  }

  lemma ServicesNone(
    q: Queue, services: seq<LoadedService>, g: GroupView, skip: Option<SecretId>, replacement: Replacement)
    ensures QueueServices(q, services[..0], g, skip, replacement) == q
  {
  }

  lemma ServicesMore(
    q: Queue, services: seq<LoadedService>, n: nat, g: GroupView, skip: Option<SecretId>, replacement: Replacement)
    requires n < |services|
    ensures QueueServices(q, services[..n + 1], g, skip, replacement) ==
            QueueReferences(QueueServices(q, services[..n], g, skip, replacement), services[n].id, services[n].refs, g,
                            skip, replacement)
  {
    hide QueueReferences;
    assert services[..n + 1][..n] == services[..n];
  }

  method EnqueueSameVersionServices(payload: SyncPayload, secret: GroupView)
    requires payload.QueueValid() && payload.RefsLoaded()
    modifies payload`tasks, payload`order, payload`queue, payload`position, payload.tasks.Values
    ensures payload.QueueValid() && payload.RefsLoaded()
    ensures payload.queue == QueueServices(old(payload.queue), payload.services, secret, Some(secret.id),
                                           Replacement(secret.path, secret.id))
    ensures fresh(payload.tasks.Values - old(payload.tasks.Values))
  {
    EnqueueServices(payload, secret, Some(secret.id), Replacement(secret.path, secret.id));
  }

  method EnqueueUpdatedServices(payload: SyncPayload, secret: GroupView, created: Replacement)
    requires payload.QueueValid() && payload.RefsLoaded()
    modifies payload`tasks, payload`order, payload`queue, payload`position, payload.tasks.Values
    ensures payload.QueueValid() && payload.RefsLoaded()
    ensures payload.queue == QueueServices(old(payload.queue), payload.services, secret, None, created)
    ensures fresh(payload.tasks.Values - old(payload.tasks.Values))
  {
    EnqueueServices(payload, secret, None, created);
  }

  // ---------------------------------------------------------------- one external secret

  ghost function MarkOf(engine: Swarm, provider: Provider): Mark
    reads engine, provider
  {
    Mark(engine.world, engine.journal, engine.faults + provider.faults)
  }

  method CreateMissingSecret(result: SyncResult, engine: Swarm, provider: Provider, e: External, p: string)
    returns (ok: bool, result': SyncResult)
    modifies engine`world, engine`journal, engine`faults, provider`faults
    ensures ok ==> e.path in provider.payloads && !NameTaken(old(engine.world), p)
    ensures ok ==> var secret := Secret(p, p, e.fullPath, e.versionId, e.description, true,
                                        provider.payloads[e.path], 0);
                   engine.world == AddSecret(old(engine.world), secret)
    ensures result' == if ok then result.(created := result.created + 1) else result
    ensures !ok ==> engine.world == old(engine.world)
    ensures ok ==> engine.faults == old(engine.faults) && provider.faults == old(provider.faults)
    ensures !ok ==> engine.faults + provider.faults > old(engine.faults + provider.faults) ||
                    e.path !in provider.payloads || NameTaken(engine.world, p)
    ensures engine.faults >= old(engine.faults) && provider.faults >= old(provider.faults)
    ensures Calm(old(engine.journal), engine.journal)
  {
    var value := provider.GetSecretPayload(e.path);
    if value.None? {
      return false, result;
    }
    var id := engine.SecretCreate(Secret(p, p, e.fullPath, e.versionId, e.description, true, value.value, 0));
    if id.None? {
      return false, result;
    }
    return true, result.(created := result.created + 1);
  }

  method CreateSecretVersion(
    engine: Swarm, provider: Provider, e: External, secret: GroupView, name: string)
    returns (created: Option<Replacement>, value: string)
    modifies engine`world, engine`journal, engine`faults, provider`faults
    ensures created.Some? ==>
              e.path in provider.payloads && value == provider.payloads[e.path] &&
              created.value == Replacement(name, NextId(old(engine.world))) && !NameTaken(old(engine.world), name)
    ensures created.Some? ==>
              var version := Secret(name, secret.path, secret.externalPath, e.versionId, e.description, true, value, 0);
              engine.world == AddSecret(old(engine.world), version)
    ensures created.None? ==> engine.world == old(engine.world)
    ensures created.Some? ==> engine.faults == old(engine.faults) && provider.faults == old(provider.faults)
    ensures created.None? ==>
              engine.faults + provider.faults > old(engine.faults + provider.faults) ||
              e.path !in provider.payloads || NameTaken(engine.world, name)
    ensures engine.faults >= old(engine.faults) && provider.faults >= old(provider.faults)
    ensures Calm(old(engine.journal), engine.journal)
  {
    value := "";
    var payload := provider.GetSecretPayload(e.path);
    if payload.None? {
      return None, value;
    }
    value := payload.value;
    var id := engine.SecretCreate(
      Secret(name, secret.path, secret.externalPath, e.versionId, e.description, true, value, 0));
    if id.None? {
      return None, value;
    }
    return Some(Replacement(name, id.value)), value;
  }

  // The same-version branch.
  method KeepSecret(payload: SyncPayload, p: string)
    requires payload.QueueValid() && payload.RefsLoaded() && p in payload.groups
    modifies payload`tasks, payload`order, payload`queue, payload`position, payload.tasks.Values
    modifies payload`run, payload`removals, payload`result
    ensures payload.QueueValid() && payload.RefsLoaded()
    ensures payload.CurrentWork() == Keeping(old(payload.CurrentWork()), payload.services, p)
    ensures fresh(payload.tasks.Values - old(payload.tasks.Values))
  {
    hide payload.QueueValid, payload.RefsLoaded, QueueServices;
    var secret := payload.groups[p];
    EnqueueSameVersionServices(payload, secret);
    if secret.managed && |secret.versions| > 1 {
      payload.removals := payload.removals + [VersionRemoval(secret, false)];
    }
    payload.result := payload.result.(skipped := payload.result.skipped + 1);
    payload.run := payload.run[p := Kept];
  }

  // The bookkeeping of a created version: the rollout, the removal of the old group, the new parent.
  method QueueUpdate(
    payload: SyncPayload, p: string, created: Replacement, restore: UpdatedSecret, ghost wanted: Want)
    requires payload.QueueValid() && payload.RefsLoaded() && p in payload.groups
    requires created.name == wanted.versionName && restore == RestoreOf(payload.groups[p], wanted)
    modifies payload`tasks, payload`order, payload`queue, payload`position, payload.tasks.Values
    modifies payload`run, payload`removals, payload`restores, payload`groups, payload`result
    ensures payload.QueueValid() && payload.RefsLoaded()
    ensures payload.CurrentWork() == Rotating(old(payload.CurrentWork()), payload.services, p, wanted, created.id)
    ensures fresh(payload.tasks.Values - old(payload.tasks.Values))
  {
    hide payload.QueueValid, payload.RefsLoaded, QueueServices;
    var secret := payload.groups[p].(managed := true);
    EnqueueUpdatedServices(payload, secret, created);
    payload.groups := payload.groups[p := secret];
    payload.removals := payload.removals + [VersionRemoval(secret, true)];
    payload.restores := payload.restores + [restore];
    payload.result := payload.result.(updated := payload.result.updated + 1);
    payload.run := payload.run[p := Rotated(created.id)];
  }

  lemma VersionWanted(e: External, payloads: map<string, string>, config: Config, p: string, g: GroupView)
    requires e.path in payloads && e.path in config.uuids
    ensures var wanted := WantFor(e, payloads, config);
            wanted.versionName == Generate(e.path, config.delimiter, e.versionId, config.uuids[e.path]) &&
            wanted.versionId == e.versionId &&
            RestoreOf(g, wanted) == UpdatedSecret(g.path, payloads[e.path], e.description, e.fullPath, e.versionId) &&
            VersionSecret(g.path, g.externalPath, wanted) ==
            Secret(wanted.versionName, g.path, g.externalPath, e.versionId, e.description, true, payloads[e.path], 0) &&
            ParentSecret(p, wanted) ==
            Secret(p, p, e.fullPath, e.versionId, e.description, true, payloads[e.path], 0)
  {
  }

  // The changed-version branch.
  method UpdateSecret(
    payload: SyncPayload, engine: Swarm, provider: Provider, config: Config, e: External, p: string)
    returns (ok: bool)
    requires payload.QueueValid() && payload.RefsLoaded() && p in payload.groups
    requires e.path in provider.payloads && e.path in config.uuids
    modifies payload`tasks, payload`order, payload`queue, payload`position, payload.tasks.Values
    modifies payload`run, payload`removals, payload`restores, payload`groups, payload`result
    modifies engine`world, engine`journal, engine`faults, provider`faults
    ensures payload.QueueValid() && payload.RefsLoaded()
    ensures ok ==>
              var wanted, g := WantFor(e, provider.payloads, config), old(payload.groups)[p];
              !NameTaken(old(engine.world), wanted.versionName) &&
              engine.world == AddSecret(old(engine.world), VersionSecret(g.path, g.externalPath, wanted)) &&
              payload.CurrentWork() ==
              Rotating(old(payload.CurrentWork()), payload.services, p, wanted, NextId(old(engine.world)))
    ensures !ok ==> engine.world == old(engine.world) && payload.CurrentWork() == old(payload.CurrentWork())
    ensures ok ==> engine.faults + provider.faults == old(engine.faults + provider.faults)
    ensures engine.faults + provider.faults >= old(engine.faults + provider.faults)
    ensures !ok ==> engine.faults + provider.faults > old(engine.faults + provider.faults) ||
                    NameTaken(engine.world, WantFor(e, provider.payloads, config).versionName)
    ensures Calm(old(engine.journal), engine.journal)
    ensures fresh(payload.tasks.Values - old(payload.tasks.Values))
  {
    hide *;
    var secret := payload.groups[p];
    VersionWanted(e, provider.payloads, config, p, secret);
    var name := Generate(e.path, config.delimiter, e.versionId, config.uuids[e.path]);
    var created, value := CreateSecretVersion(engine, provider, e, secret, name);
    if created.None? {
      return false;
    }
    QueueUpdate(payload, p, created.value,
                UpdatedSecret(secret.path, value, e.description, e.fullPath, e.versionId),
                WantFor(e, provider.payloads, config));
    return true;
  }

  // The missing-secret branch.
  method CreateSecretAt(
    payload: SyncPayload, engine: Swarm, provider: Provider, config: Config, e: External, p: string)
    returns (ok: bool)
    requires e.path in provider.payloads && e.path in config.uuids
    modifies payload`run, payload`result
    modifies engine`world, engine`journal, engine`faults, provider`faults
    ensures ok ==>
              !NameTaken(old(engine.world), p) &&
              engine.world == AddSecret(old(engine.world), ParentSecret(p, WantFor(e, provider.payloads, config))) &&
              payload.CurrentWork() == Creating(old(payload.CurrentWork()), p, NextId(old(engine.world)))
    ensures !ok ==> engine.world == old(engine.world) && payload.CurrentWork() == old(payload.CurrentWork())
    ensures ok ==> engine.faults + provider.faults == old(engine.faults + provider.faults)
    ensures engine.faults + provider.faults >= old(engine.faults + provider.faults)
    ensures !ok ==> engine.faults + provider.faults > old(engine.faults + provider.faults) ||
                    NameTaken(engine.world, p)
    ensures Calm(old(engine.journal), engine.journal)
  {
    hide WantFor, ParentSecret, AddSecret, Calm, NameTaken;
    VersionWanted(e, provider.payloads, config, p, GroupView(NO_ID, "", "", false, [], Version(NO_ID, "", 0)));
    var id := NextId(engine.world);
    var result;
    ok, result := CreateMissingSecret(payload.result, engine, provider, e, p);
    payload.result := result;
    if ok {
      payload.run := payload.run[p := Created(id)];
    }
  }

  // One external secret, whether or not its path was met before in this run.
  method ProcessExternalSecret(
    payload: SyncPayload, engine: Swarm, provider: Provider, config: Config, e: External)
    returns (ok: bool)
    requires payload.QueueValid() && payload.RefsLoaded()
    requires e.path in provider.payloads && e.path in config.uuids
    modifies payload`tasks, payload`order, payload`queue, payload`position, payload.tasks.Values
    modifies payload`run, payload`removals, payload`restores, payload`groups, payload`result
    modifies engine`world, engine`journal, engine`faults, provider`faults
    ensures payload.QueueValid() && payload.RefsLoaded()
    ensures ok ==> Processed(old(payload.CurrentWork()), payload.services, old(engine.world),
                             PreparePath(e.path, config.delimiter), WantFor(e, provider.payloads, config),
                             payload.CurrentWork(), engine.world)
    ensures ok || engine.faults + provider.faults > old(engine.faults + provider.faults) ||
            NameBlocked(old(payload.CurrentWork()), old(engine.world), PreparePath(e.path, config.delimiter),
                        WantFor(e, provider.payloads, config))
    ensures Stepped(ok, old(payload.CurrentWork()), payload.CurrentWork(), old(MarkOf(engine, provider)),
                    MarkOf(engine, provider))
    ensures fresh(payload.tasks.Values - old(payload.tasks.Values))
  {
    hide *;
    var p := PreparePath(e.path, config.delimiter);
    ghost var c, m, wanted := payload.CurrentWork(), MarkOf(engine, provider), WantFor(e, provider.payloads, config);
    WorkParts(payload);
    MarkIs(engine, provider);
    if p !in payload.groups {
      ok := CreateSecretAt(payload, engine, provider, config, e, p);
    } else {
      VersionWanted(e, provider.payloads, config, p, payload.groups[p]);
      if payload.groups[p].LatestVersion().externalId == e.versionId {
        KeepSecret(payload, p);
        ok := true;
        CalmSame(engine.journal);
      } else {
        ok := UpdateSecret(payload, engine, provider, config, e, p);
      }
    }
    MarkIs(engine, provider);
    ProcessedIs(ok, c, payload.services, p, wanted, payload.CurrentWork(), m, MarkOf(engine, provider));
  }

  lemma MarkIs(engine: Swarm, provider: Provider)
    ensures MarkOf(engine, provider) == Mark(engine.world, engine.journal, engine.faults + provider.faults)
  {
  }

  // ---------------------------------------------------------------- all external secrets

  // One external secret whose path was not met before.
  method ProcessNext(
    payload: SyncPayload, engine: Swarm, provider: Provider, config: Config, k: string, ghost todo: set<string>,
    ghost start: Mark, ghost want: map<string, Want>)
    returns (ok: bool)
    requires payload.QueueValid() && payload.RefsLoaded()
    requires Loads(payload.services, payload.groups, payload.run, start.world)
    requires Queuing(start.world, want, engine.world, payload.CurrentWork())
    requires Describes(want, payload.externals, provider.payloads, config)
    requires k in todo && k in payload.externals && Remaining(todo, payload.externals, config, payload.run)
    requires Progress(payload.CurrentWork(), start, MarkOf(engine, provider))
    modifies payload`tasks, payload`order, payload`queue, payload`position, payload.tasks.Values
    modifies payload`run, payload`removals, payload`restores, payload`groups, payload`result
    modifies engine`world, engine`journal, engine`faults, provider`faults
    ensures fresh(payload.tasks.Values - old(payload.tasks.Values))
    ensures payload.QueueValid() && payload.RefsLoaded()
    ensures ok ==> Loads(payload.services, payload.groups, payload.run, start.world)
    ensures ok ==> Queuing(start.world, want, engine.world, payload.CurrentWork())
    ensures ok ==> Remaining(todo - {k}, payload.externals, config, payload.run)
    ensures ok ==> Progress(payload.CurrentWork(), start, MarkOf(engine, provider))
    ensures !ok ==> Stopped(payload.result, want, start, MarkOf(engine, provider))
  {
    hide *;
    ghost var c, m := payload.CurrentWork(), MarkOf(engine, provider);
    var e := payload.externals[k];
    ghost var p := PreparePath(e.path, config.delimiter);
    WorkParts(payload);
    MarkIs(engine, provider);
    DescribesAt(want, payload.externals, provider.payloads, config, k);
    RemainingAt(todo, payload.externals, config, payload.run, k);
    ProcessedQueuing(start.world, want, engine.world, c, payload.services, p);
    ok := ProcessExternalSecret(payload, engine, provider, config, e);
    ghost var c', m' := payload.CurrentWork(), MarkOf(engine, provider);
    WorkParts(payload);
    MarkIs(engine, provider);
    if ok {
      AdvancesRun(c, m.world, p, c', m'.world);
      ProgressMore(p, c, c', start, m, m');
      RemainingLess(want, todo, payload.externals, provider.payloads, config, c.run, k, c'.run[p]);
    } else {
      ProgressStops(start.world, want, c, c', start, m, m');
    }
  }

  lemma WorkParts(payload: SyncPayload)
    ensures var c := payload.CurrentWork();
            c.groups == payload.groups && c.run == payload.run && c.queue == payload.queue &&
            c.removals == payload.removals && c.restores == payload.restores && c.result == payload.result
  {
  }

  // Step 3. The external secrets come in any order.
  method ProcessExternalSecrets(
    payload: SyncPayload, engine: Swarm, provider: Provider, config: Config, ghost want: map<string, Want>)
    returns (ok: bool)
    requires payload.QueueValid() && payload.RefsLoaded()
    requires Loads(payload.services, payload.groups, map[], engine.world)
    requires Queuing(engine.world, want, engine.world, payload.CurrentWork())
    requires Describes(want, payload.externals, provider.payloads, config)
    requires payload.run == map[] && payload.result == SyncResult(0, 0, 0, 0, 0)
    modifies payload`tasks, payload`order, payload`queue, payload`position, payload.tasks.Values
    modifies payload`run, payload`removals, payload`restores, payload`groups, payload`result
    modifies engine`world, engine`journal, engine`faults, provider`faults
    ensures fresh(payload.tasks.Values - old(payload.tasks.Values))
    ensures payload.QueueValid() && payload.RefsLoaded()
    ensures ok ==> Loads(payload.services, payload.groups, payload.run, old(engine.world))
    ensures ok ==> Queuing(old(engine.world), want, engine.world, payload.CurrentWork())
    ensures ok ==> payload.run.Keys == want.Keys
    ensures ok ==> Progress(payload.CurrentWork(), old(MarkOf(engine, provider)), MarkOf(engine, provider))
    ensures !ok ==> Stopped(payload.result, want, old(MarkOf(engine, provider)), MarkOf(engine, provider))
  {
    hide *;
    ghost var start := MarkOf(engine, provider);
    MarkIs(engine, provider);
    WorkParts(payload);
    ProgressStart(payload.CurrentWork(), start);
    RemainingStart(payload.externals, config);
    var todo := payload.externals.Keys;
    while todo != {}
      invariant todo <= payload.externals.Keys
      invariant fresh(payload.tasks.Values - old(payload.tasks.Values))
      invariant payload.QueueValid() && payload.RefsLoaded()
      invariant Loads(payload.services, payload.groups, payload.run, start.world)
      invariant Queuing(start.world, want, engine.world, payload.CurrentWork())
      invariant Remaining(todo, payload.externals, config, payload.run)
      invariant Progress(payload.CurrentWork(), start, MarkOf(engine, provider))
      decreases todo
    {
      assert exists k :: k in todo;
      var k :| k in todo;
      ok := ProcessNext(payload, engine, provider, config, k, todo, start, want);
      if !ok {
        return false;
      }
      todo := todo - {k};
    }
    WorkParts(payload);
    QueuingFacts(start.world, want, engine.world, payload.CurrentWork());
    RemainingNone(want, payload.externals, provider.payloads, config, payload.run);
    return true;
  }
}
