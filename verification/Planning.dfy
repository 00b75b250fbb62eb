// What step 3 decides for each external secret, as a function of the work so far, and what that work amounts to
// (internal/sync/step3_process_secrets.go).
module Planning {
  import opened Wrappers
  import opened SecretName
  import opened Docker
  import opened Engine
  import opened Rotation
  import opened Grouping
  import opened Rollout
  import opened Stages
  import opened Payload
  import opened ExternalStorage

  // ---------------------------------------------------------------- the queue after one external secret

  ghost predicate Uses(r: Ref, g: GroupView) {
    r.secretName == g.path || HasVersion(g.versions, r.secretId)
  }

  // The queue after the references of one service; a reference on `skip` is passed over.
  ghost function QueueReferences(
    q: Queue, s: ServiceId, refs: seq<Ref>, g: GroupView, skip: Option<SecretId>, replacement: Replacement): Queue
    decreases |refs|
  {
    if refs == [] then q
    else
      var n := |refs| - 1;
      var q' := QueueReferences(q, s, refs[..n], g, skip, replacement);
      if Uses(refs[n], g) && skip != Some(refs[n].secretId) then Enqueued(q', s, refs[n].secretId, replacement) else q'
  }

  ghost function QueueServices(
    q: Queue, services: seq<LoadedService>, g: GroupView, skip: Option<SecretId>, replacement: Replacement): Queue
    decreases |services|
  {
    if services == [] then q
    else
      var n := |services| - 1;
      var q' := QueueServices(q, services[..n], g, skip, replacement);
      QueueReferences(q', services[n].id, services[n].refs, g, skip, replacement)
  }

  // Some reference to the secret is to be replaced.
  ghost predicate Hits(refs: seq<Ref>, g: GroupView, skip: Option<SecretId>, i: SecretId) {
    skip != Some(i) && exists k :: 0 <= k < |refs| && refs[k].secretId == i && Uses(refs[k], g)
  }

  ghost predicate ServiceHits(
    services: seq<LoadedService>, g: GroupView, skip: Option<SecretId>, s: ServiceId, i: SecretId)
  {
    exists j :: 0 <= j < |services| && services[j].id == s && Hits(services[j].refs, g, skip, i)
  }

  // The entries of a queue after some were set to the replacement.
  ghost predicate EntryIs(q: Queue, q': Queue, s: ServiceId, i: SecretId, hit: bool, replacement: Replacement) {
    (Queued(q', s, i) <==> Queued(q, s, i) || hit) &&
    (Queued(q', s, i) ==> q'[s][i] == if hit then replacement else q[s][i])
  }

  ghost predicate NoEmptyEntry(q: Queue) {
    forall s :: s in q ==> exists i :: Queued(q, s, i)
  }

  lemma HitsMore(refs: seq<Ref>, n: nat, g: GroupView, skip: Option<SecretId>, i: SecretId)
    requires n + 1 == |refs|
    ensures Hits(refs, g, skip, i) <==>
            Hits(refs[..n], g, skip, i) || (skip != Some(i) && refs[n].secretId == i && Uses(refs[n], g))
  {
  }

  lemma {:induction false} ReferencesExact(
    q: Queue, s: ServiceId, refs: seq<Ref>, g: GroupView, skip: Option<SecretId>, replacement: Replacement,
    t: ServiceId, i: SecretId)
    ensures EntryIs(q, QueueReferences(q, s, refs, g, skip, replacement), t, i, t == s && Hits(refs, g, skip, i),
                    replacement)
    decreases |refs|
  {
    hide Uses;
    if refs != [] {
      var n := |refs| - 1;
      ReferencesExact(q, s, refs[..n], g, skip, replacement, t, i);
      HitsMore(refs, n, g, skip, i);
      hide Hits;
    }
  }

  lemma ServiceHitsMore(
    services: seq<LoadedService>, n: nat, g: GroupView, skip: Option<SecretId>, s: ServiceId, i: SecretId)
    requires n + 1 == |services|
    ensures ServiceHits(services, g, skip, s, i) <==>
            ServiceHits(services[..n], g, skip, s, i) ||
            (services[n].id == s && Hits(services[n].refs, g, skip, i))
  {
  }

  // The references that use the group get the replacement, those on `skip` excepted, and nothing else changes.
  lemma {:induction false} ServicesExact(
    q: Queue, services: seq<LoadedService>, g: GroupView, skip: Option<SecretId>, replacement: Replacement,
    s: ServiceId, i: SecretId)
    ensures EntryIs(q, QueueServices(q, services, g, skip, replacement), s, i, ServiceHits(services, g, skip, s, i),
                    replacement)
    decreases |services|
  {
    hide Hits;
    if services != [] {
      var n := |services| - 1;
      ServicesExact(q, services[..n], g, skip, replacement, s, i);
      ServiceHitsMore(services, n, g, skip, s, i);
      ReferencesExact(QueueServices(q, services[..n], g, skip, replacement), services[n].id, services[n].refs, g, skip,
                      replacement, s, i);
      hide ServiceHits, QueueReferences;
    }
  }

  lemma {:induction false} ReferencesNoEmpty(
    q: Queue, s: ServiceId, refs: seq<Ref>, g: GroupView, skip: Option<SecretId>, replacement: Replacement)
    requires NoEmptyEntry(q)
    ensures NoEmptyEntry(QueueReferences(q, s, refs, g, skip, replacement))
    decreases |refs|
  {
    hide Uses;
    if refs != [] {
      var n := |refs| - 1;
      ReferencesNoEmpty(q, s, refs[..n], g, skip, replacement);
      EnqueuedNoEmpty(QueueReferences(q, s, refs[..n], g, skip, replacement), s, refs[n].secretId, replacement);
    }
  }

  lemma EnqueuedNoEmpty(q: Queue, s: ServiceId, i: SecretId, replacement: Replacement)
    requires NoEmptyEntry(q)
    ensures NoEmptyEntry(Enqueued(q, s, i, replacement))
  {
    var q' := Enqueued(q, s, i, replacement);
    assert Queued(q', s, i);
    forall t | t in q' ensures exists j :: Queued(q', t, j) {
      if t in q {
        var j :| Queued(q, t, j);
        assert Queued(q', t, j);
      }
    }
  }

  lemma {:induction false} ServicesNoEmpty(
    q: Queue, services: seq<LoadedService>, g: GroupView, skip: Option<SecretId>, replacement: Replacement)
    requires NoEmptyEntry(q)
    ensures NoEmptyEntry(QueueServices(q, services, g, skip, replacement))
    decreases |services|
  {
    if services != [] {
      var n := |services| - 1;
      ServicesNoEmpty(q, services[..n], g, skip, replacement);
      ReferencesNoEmpty(QueueServices(q, services[..n], g, skip, replacement), services[n].id, services[n].refs, g,
                        skip, replacement);
    }
  }

  // ---------------------------------------------------------------- one external secret

  ghost function Creating(c: Work, p: string, id: SecretId): Work {
    c.(result := c.result.(created := c.result.created + 1), run := c.run[p := Created(id)])
  }

  // The same-version branch.
  ghost function Keeping(c: Work, services: seq<LoadedService>, p: string): Work
    requires p in c.groups
  {
    var g := c.groups[p];
    c.(queue := QueueServices(c.queue, services, g, Some(g.id), Replacement(g.path, g.id)),
       removals := if g.managed && |g.versions| > 1 then c.removals + [VersionRemoval(g, false)] else c.removals,
       result := c.result.(skipped := c.result.skipped + 1),
       run := c.run[p := Kept])
  }

  ghost function RestoreOf(g: GroupView, wanted: Want): UpdatedSecret {
    UpdatedSecret(g.path, wanted.data, wanted.description, wanted.externalPath, wanted.versionId)
  }

  // The changed-version branch, once the version is created under `id`.
  ghost function Rotating(c: Work, services: seq<LoadedService>, p: string, wanted: Want, id: SecretId): Work
    requires p in c.groups
  {
    var g := c.groups[p].(managed := true);
    c.(groups := c.groups[p := g],
       queue := QueueServices(c.queue, services, g, None, Replacement(wanted.versionName, id)),
       removals := c.removals + [VersionRemoval(g, true)],
       restores := c.restores + [RestoreOf(g, wanted)],
       result := c.result.(updated := c.result.updated + 1),
       run := c.run[p := Rotated(id)])
  }

  // What one external secret does to the work and to Swarm when no request fails. Nothing is said about whether the
  // path was met before in the same run.
  ghost predicate Processed(
    c: Work, services: seq<LoadedService>, w: World, p: string, wanted: Want, c': Work, w': World)
  {
    if p !in c.groups then
      !NameTaken(w, p) && w' == AddSecret(w, ParentSecret(p, wanted)) && c' == Creating(c, p, NextId(w))
    else if c.groups[p].LatestVersion().externalId == wanted.versionId then
      w' == w && c' == Keeping(c, services, p)
    else
      !NameTaken(w, wanted.versionName) &&
      w' == AddSecret(w, VersionSecret(c.groups[p].path, c.groups[p].externalPath, wanted)) &&
      c' == Rotating(c, services, p, wanted, NextId(w))
  }

  // ---------------------------------------------------------------- what the work amounts to

  ghost predicate HasRemoval(removals: seq<VersionRemoval>, p: string) {
    exists k :: 0 <= k < |removals| && removals[k].secret.path == p
  }

  ghost predicate HasRestore(restores: seq<UpdatedSecret>, p: string) {
    exists k :: 0 <= k < |restores| && restores[k].path == p
  }

  ghost predicate NeedsRemoval(w: World, run: map<string, Action>, p: string) {
    p in run &&
    (run[p].Rotated? || (run[p].Kept? && Managed(w, p) && exists i :: InGroup(w, p, i) && !IsParent(w, p, i)))
  }

  ghost predicate RemovalFits(w: World, run: map<string, Action>, groups: map<string, GroupView>, r: VersionRemoval) {
    var p := r.secret.path;
    p in groups && groups[p] == r.secret && p in run &&
    if r.removeParent then run[p].Rotated? else run[p].Kept? && Managed(w, p)
  }

  ghost predicate RemovalsFit(
    w: World, run: map<string, Action>, groups: map<string, GroupView>, removals: seq<VersionRemoval>)
  {
    (forall k :: 0 <= k < |removals| ==> RemovalFits(w, run, groups, removals[k])) &&
    (forall p :: NeedsRemoval(w, run, p) ==> HasRemoval(removals, p))
  }

  ghost predicate RestoreFits(want: map<string, Want>, run: map<string, Action>, r: UpdatedSecret) {
    r.path in run && r.path in want && run[r.path].Rotated? &&
    r == UpdatedSecret(r.path, want[r.path].data, want[r.path].description, want[r.path].externalPath,
                       want[r.path].versionId)
  }

  ghost predicate RestoresFit(want: map<string, Want>, run: map<string, Action>, restores: seq<UpdatedSecret>) {
    (forall k :: 0 <= k < |restores| ==> RestoreFits(want, run, restores[k])) &&
    (forall j, k :: 0 <= j < k < |restores| ==> restores[j].path != restores[k].path) &&
    (forall p :: p in run && run[p].Rotated? ==> HasRestore(restores, p))
  }

  lemma RemovalsAppend(
    w: World, run: map<string, Action>, groups: map<string, GroupView>, removals: seq<VersionRemoval>,
    p: string, a: Action, r: VersionRemoval)
    requires RemovalsFit(w, run, groups, removals) && p !in run
    requires r.secret.path == p && RemovalFits(w, run[p := a], groups, r)
    ensures RemovalsFit(w, run[p := a], groups, removals + [r])
  {
    var removals', run' := removals + [r], run[p := a];
    assert removals'[|removals|] == r;
    forall q | NeedsRemoval(w, run', q) ensures HasRemoval(removals', q) {
      if q != p {
        assert NeedsRemoval(w, run, q);
        var k :| 0 <= k < |removals| && removals[k].secret.path == q;
        assert removals'[k].secret.path == q;
      }
    }
  }

  lemma RemovalsSkip(
    w: World, run: map<string, Action>, groups: map<string, GroupView>, removals: seq<VersionRemoval>,
    p: string, a: Action)
    requires RemovalsFit(w, run, groups, removals) && p !in run && !NeedsRemoval(w, run[p := a], p)
    ensures RemovalsFit(w, run[p := a], groups, removals)
  {
  }

  lemma RestoresAppend(
    want: map<string, Want>, run: map<string, Action>, restores: seq<UpdatedSecret>, p: string, a: Action,
    r: UpdatedSecret)
    requires RestoresFit(want, run, restores) && p !in run && r.path == p && RestoreFits(want, run[p := a], r)
    ensures RestoresFit(want, run[p := a], restores + [r])
  {
    var restores', run' := restores + [r], run[p := a];
    assert restores'[|restores|] == r;
    forall q | q in run' && run'[q].Rotated? ensures HasRestore(restores', q) {
      if q != p {
        var k :| 0 <= k < |restores| && restores[k].path == q;
        assert restores'[k].path == q;
      }
    }
  }

  // Matching by name or by version id is matching by group.
  lemma MatchIsGroup(r: Ref, g: GroupView, w: World)
    requires WellFormed(w) && Resolves(w, r) && Mirrors(g, w, g.path)
    ensures Uses(r, g) <==> InGroup(w, g.path, r.secretId)
  {
  }

  // The replacement that the run gives to the references of one group.
  ghost predicate Replaces(
    w: World, want: map<string, Want>, run: map<string, Action>, p: string, replacement: Replacement)
  {
    p in want && HasTarget(w, run, p) && Target(w, want, run, p) == replacement
  }

  ghost predicate Grows(q: Queue, q': Queue) {
    forall s, i :: Queued(q, s, i) ==> Queued(q', s, i)
  }

  // Every reference into the group is on its target or queued for it.
  ghost predicate QueueCovers(w: World, p: string, target: SecretId, q: Queue) {
    forall s, k :: s in w.services && 0 <= k < |w.services[s].refs| && InGroup(w, p, w.services[s].refs[k].secretId) &&
                   w.services[s].refs[k].secretId != target ==>
                   Queued(q, s, w.services[s].refs[k].secretId)
  }

  lemma HitIsMove(
    w: World, want: map<string, Want>, run: map<string, Action>, services: seq<LoadedService>, g: GroupView,
    skip: Option<SecretId>, replacement: Replacement, s: ServiceId, i: SecretId)
    requires WellFormed(w) && Mirrors(g, w, g.path) && ListsServices(services, w)
    requires Replaces(w, want, run, g.path, replacement)
    requires if skip.Some? then skip.value == replacement.id else replacement.id !in w.secrets
    requires ServiceHits(services, g, skip, s, i)
    ensures s in w.services && RefersTo(w.services[s].refs, i)
    ensures NeedsMove(w, want, run, i) && MoveOf(w, want, run, i) == replacement
  {
  }

  lemma CoverIsHit(
    w: World, services: seq<LoadedService>, g: GroupView, skip: Option<SecretId>, target: SecretId, s: ServiceId,
    k: int)
    requires WellFormed(w) && Mirrors(g, w, g.path) && ListsServices(services, w)
    requires s in w.services && 0 <= k < |w.services[s].refs|
    requires InGroup(w, g.path, w.services[s].refs[k].secretId) && w.services[s].refs[k].secretId != target
    requires skip.None? || skip.value == target
    ensures ServiceHits(services, g, skip, s, w.services[s].refs[k].secretId)
  {
  }

  // Queueing the references of a group for its target keeps the queue sound, loses nothing, and covers the group.
  lemma QueuedGroup(
    w: World, want: map<string, Want>, run: map<string, Action>, q: Queue, services: seq<LoadedService>, g: GroupView,
    skip: Option<SecretId>, replacement: Replacement)
    requires WellFormed(w) && Mirrors(g, w, g.path) && ListsServices(services, w)
    requires Replaces(w, want, run, g.path, replacement) && QueueSound(w, want, run, q)
    requires if skip.Some? then skip.value == replacement.id else replacement.id !in w.secrets
    ensures var q' := QueueServices(q, services, g, skip, replacement);
            QueueSound(w, want, run, q') && Grows(q, q') && QueueCovers(w, g.path, replacement.id, q')
  {
    hide *;
    var q' := QueueServices(q, services, g, skip, replacement);
    SoundNoEmpty(w, want, run, q);
    ServicesNoEmpty(q, services, g, skip, replacement);
    forall s, i
      ensures EntryIs(q, q', s, i, ServiceHits(services, g, skip, s, i), replacement)
      ensures ServiceHits(services, g, skip, s, i) ==> EntrySound(w, want, run, s, i, replacement)
    {
      ServicesExact(q, services, g, skip, replacement, s, i);
      if ServiceHits(services, g, skip, s, i) {
        HitIsMove(w, want, run, services, g, skip, replacement, s, i);
        EntrySoundAt(w, want, run, s, i, replacement);
      }
    }
    SoundEntries(w, want, run, q, q', services, g, skip, replacement);
    forall s, k | s in w.services && 0 <= k < |w.services[s].refs| &&
                  InGroup(w, g.path, w.services[s].refs[k].secretId) &&
                  w.services[s].refs[k].secretId != replacement.id
      ensures ServiceHits(services, g, skip, s, w.services[s].refs[k].secretId)
    {
      CoverIsHit(w, services, g, skip, replacement.id, s, k);
    }
    HitsCover(w, q, q', services, g, skip, replacement);
  }

  ghost predicate EntrySound(
    w: World, want: map<string, Want>, run: map<string, Action>, s: ServiceId, i: SecretId, replacement: Replacement)
  {
    s in w.services && RefersTo(w.services[s].refs, i) && NeedsMove(w, want, run, i) &&
    MoveOf(w, want, run, i) == replacement
  }

  lemma EntrySoundAt(
    w: World, want: map<string, Want>, run: map<string, Action>, s: ServiceId, i: SecretId, replacement: Replacement)
    requires s in w.services && RefersTo(w.services[s].refs, i)
    requires NeedsMove(w, want, run, i) && MoveOf(w, want, run, i) == replacement
    ensures EntrySound(w, want, run, s, i, replacement)
  {
  }

  lemma SoundNoEmpty(w: World, want: map<string, Want>, run: map<string, Action>, q: Queue)
    requires QueueSound(w, want, run, q)
    ensures NoEmptyEntry(q)
  {
    hide NeedsMove, MoveOf;
    forall s | s in q ensures exists i :: Queued(q, s, i) {
      assert q[s].Keys != {};
      var i :| i in q[s].Keys;
      assert Queued(q, s, i);
    }
  }

  lemma SoundEntries(
    w: World, want: map<string, Want>, run: map<string, Action>, q: Queue, q': Queue, services: seq<LoadedService>,
    g: GroupView, skip: Option<SecretId>, replacement: Replacement)
    requires QueueSound(w, want, run, q) && NoEmptyEntry(q')
    requires forall s, i :: EntryIs(q, q', s, i, ServiceHits(services, g, skip, s, i), replacement)
    requires forall s, i :: ServiceHits(services, g, skip, s, i) ==> EntrySound(w, want, run, s, i, replacement)
    ensures QueueSound(w, want, run, q') && Grows(q, q')
  {
    hide ServiceHits, MoveOf;
    forall s | s in q'
      ensures s in w.services && q'[s] != map[]
      ensures forall i :: i in q'[s] ==>
                RefersTo(w.services[s].refs, i) && NeedsMove(w, want, run, i) && q'[s][i] == MoveOf(w, want, run, i)
    {
      var i :| Queued(q', s, i);
      assert EntryIs(q, q', s, i, ServiceHits(services, g, skip, s, i), replacement);
      forall i | i in q'[s]
        ensures RefersTo(w.services[s].refs, i) && NeedsMove(w, want, run, i) && q'[s][i] == MoveOf(w, want, run, i)
      {
        assert Queued(q', s, i);
        assert EntryIs(q, q', s, i, ServiceHits(services, g, skip, s, i), replacement);
      }
    }
    forall s, i | Queued(q, s, i) ensures Queued(q', s, i) {
      assert EntryIs(q, q', s, i, ServiceHits(services, g, skip, s, i), replacement);
    }
  }

  lemma HitsCover(
    w: World, q: Queue, q': Queue, services: seq<LoadedService>, g: GroupView, skip: Option<SecretId>,
    replacement: Replacement)
    requires forall s, i :: EntryIs(q, q', s, i, ServiceHits(services, g, skip, s, i), replacement)
    requires forall s, k :: s in w.services && 0 <= k < |w.services[s].refs| &&
                            InGroup(w, g.path, w.services[s].refs[k].secretId) &&
                            w.services[s].refs[k].secretId != replacement.id ==>
                            ServiceHits(services, g, skip, s, w.services[s].refs[k].secretId)
    ensures QueueCovers(w, g.path, replacement.id, q')
  {
  }

  lemma CompleteMore(
    w: World, want: map<string, Want>, run: map<string, Action>, q: Queue, q': Queue, p: string, a: Action)
    requires QueueComplete(w, want, run, q) && Grows(q, q') && p in want && p !in run
    requires HasTarget(w, run[p := a], p) ==> QueueCovers(w, p, Target(w, want, run[p := a], p).id, q')
    ensures QueueComplete(w, want, run[p := a], q')
  {
  }

  // ---------------------------------------------------------------- between two external secrets

  // The loaded state, the current one, and the work so far.
  ghost predicate Queuing(w: World, want: map<string, Want>, w': World, c: Work) {
    WellFormed(w) && WellFormed(w') && "" !in want && Staged(w, want, c.run, w') &&
    QueueSound(w, want, c.run, c.queue) && QueueComplete(w, want, c.run, c.queue) &&
    RemovalsFit(w, c.run, c.groups, c.removals) && RestoresFit(want, c.run, c.restores)
  }

  lemma LoadsAt(
    services: seq<LoadedService>, groups: map<string, GroupView>, run: map<string, Action>, w: World, p: string)
    requires Loads(services, groups, run, w)
    ensures ListsServices(services, w)
    ensures p in groups <==> p != "" && Parented(w, p)
    ensures p in groups ==> groups[p].path == p && Mirrors(groups[p], w, p)
    ensures p in groups && p !in run ==> groups[p].managed == Managed(w, p)
  {
  }

  // A processed path may change its group's managed flag.
  lemma LoadsMore(
    services: seq<LoadedService>, groups: map<string, GroupView>, run: map<string, Action>, w: World, p: string,
    a: Action)
    requires Loads(services, groups, run, w)
    ensures Loads(services, groups, run[p := a], w)
    ensures p in groups ==> Loads(services, groups[p := groups[p].(managed := true)], run[p := a], w)
  {
    if p in groups {
      var g := groups[p].(managed := true);
      assert Mirrors(groups[p], w, p) && Mirrors(g, w, p);
    }
  }

  lemma RestoresSkip(
    want: map<string, Want>, run: map<string, Action>, restores: seq<UpdatedSecret>, p: string, a: Action)
    requires RestoresFit(want, run, restores) && p !in run && !a.Rotated?
    ensures RestoresFit(want, run[p := a], restores)
  {
  }

  lemma QueuingCreated(w: World, want: map<string, Want>, w': World, c: Work, p: string)
    requires Queuing(w, want, w', c) && p in want && p !in c.run && !Parented(w, p) && !NameTaken(w', p)
    ensures Queuing(w, want, AddSecret(w', ParentSecret(p, want[p])), Creating(c, p, NextId(w')))
  {
    var a := Created(NextId(w'));
    StageCreated(w, want, c.run, w', p);
    AddKeepsWellFormed(w', ParentSecret(p, want[p]));
    SoundGrows(w, want, c.run, c.queue, p, a);
    CompleteMore(w, want, c.run, c.queue, c.queue, p, a);
    RemovalsSkip(w, c.run, c.groups, c.removals, p, a);
    RestoresSkip(want, c.run, c.restores, p, a);
  }

  // A group of one secret has nothing to remove beside its parent.
  lemma LoneParent(w: World, p: string, g: GroupView, i: SecretId)
    requires Mirrors(g, w, p) && InGroup(w, p, i) && !IsParent(w, p, i)
    ensures |g.versions| > 1
  {
    assert HasVersion(g.versions, i) && HasVersion(g.versions, g.id);
  }

  lemma RemovalsKept(
    w: World, run: map<string, Action>, groups: map<string, GroupView>, removals: seq<VersionRemoval>, p: string)
    requires RemovalsFit(w, run, groups, removals) && p !in run && p in groups && groups[p].path == p
    requires Mirrors(groups[p], w, p) && groups[p].managed == Managed(w, p)
    ensures RemovalsFit(w, run[p := Kept], groups,
                        if groups[p].managed && |groups[p].versions| > 1
                        then removals + [VersionRemoval(groups[p], false)] else removals)
  {
    if groups[p].managed && |groups[p].versions| > 1 {
      RemovalsAppend(w, run, groups, removals, p, Kept, VersionRemoval(groups[p], false));
    } else {
      forall i | InGroup(w, p, i) && Managed(w, p) ensures IsParent(w, p, i) {
        if !IsParent(w, p, i) {
          LoneParent(w, p, groups[p], i);
        }
      }
      RemovalsSkip(w, run, groups, removals, p, Kept);
    }
  }

  lemma QueuingParts(w: World, want: map<string, Want>, w': World, c: Work)
    requires Queuing(w, want, w', c)
    ensures WellFormed(w) && WellFormed(w') && "" !in want && Staged(w, want, c.run, w')
    ensures QueueSound(w, want, c.run, c.queue) && QueueComplete(w, want, c.run, c.queue)
    ensures RemovalsFit(w, c.run, c.groups, c.removals) && RestoresFit(want, c.run, c.restores)
    ensures RunFresh(w, c.run)
  {
  }

  lemma QueuingIs(w: World, want: map<string, Want>, w': World, c: Work)
    requires WellFormed(w) && WellFormed(w') && "" !in want && Staged(w, want, c.run, w')
    requires QueueSound(w, want, c.run, c.queue) && QueueComplete(w, want, c.run, c.queue)
    requires RemovalsFit(w, c.run, c.groups, c.removals) && RestoresFit(want, c.run, c.restores)
    ensures Queuing(w, want, w', c)
  {
  }

  lemma KeptTarget(w: World, want: map<string, Want>, run: map<string, Action>, g: GroupView, p: string)
    requires p in want && Parented(w, p) && g.path == p && ParentOf(w, p) == g.id
    ensures Replaces(w, want, run[p := Kept], p, Replacement(p, g.id))
    ensures HasTarget(w, run[p := Kept], p) && Target(w, want, run[p := Kept], p).id == g.id
  {
  }

  lemma RotatedTarget(w: World, want: map<string, Want>, run: map<string, Action>, p: string, id: SecretId)
    requires p in want
    ensures Replaces(w, want, run[p := Rotated(id)], p, Replacement(want[p].versionName, id))
    ensures HasTarget(w, run[p := Rotated(id)], p) && Target(w, want, run[p := Rotated(id)], p).id == id
  {
  }

  lemma QueuingKept(
    w: World, want: map<string, Want>, w': World, c: Work, services: seq<LoadedService>, p: string)
    requires Queuing(w, want, w', c) && Loads(services, c.groups, c.run, w)
    requires p in want && p !in c.run && p in c.groups && LatestIs(w, p, want[p].versionId)
    ensures Queuing(w, want, w', Keeping(c, services, p))
  {
    hide *;
    QueuingParts(w, want, w', c);
    LoadsAt(services, c.groups, c.run, w, p);
    var g := c.groups[p];
    MirrorsParent(g, w, p);
    KeptTarget(w, want, c.run, g, p);
    StageKept(w, want, c.run, w', p);
    SoundGrows(w, want, c.run, c.queue, p, Kept);
    QueuedGroup(w, want, c.run[p := Kept], c.queue, services, g, Some(g.id), Replacement(g.path, g.id));
    var q' := QueueServices(c.queue, services, g, Some(g.id), Replacement(g.path, g.id));
    CompleteMore(w, want, c.run, c.queue, q', p, Kept);
    RestoresSkip(want, c.run, c.restores, p, Kept);
    RemovalsKept(w, c.run, c.groups, c.removals, p);
    KeepingIs(c, services, p);
    QueuingIs(w, want, w', Keeping(c, services, p));
  }

  lemma KeepingIs(c: Work, services: seq<LoadedService>, p: string)
    requires p in c.groups
    ensures var c', g := Keeping(c, services, p), c.groups[p];
            c'.groups == c.groups && c'.restores == c.restores && c'.run == c.run[p := Kept] &&
            c'.queue == QueueServices(c.queue, services, g, Some(g.id), Replacement(g.path, g.id)) &&
            c'.removals ==
            if g.managed && |g.versions| > 1 then c.removals + [VersionRemoval(g, false)] else c.removals
  {
  }

  lemma MirrorsParent(g: GroupView, w: World, p: string)
    requires WellFormed(w) && Mirrors(g, w, p)
    ensures g.path == p && Parented(w, p) && ParentOf(w, p) == g.id
    ensures g.externalPath == w.secrets[ParentOf(w, p)].externalPath
  {
  }

  lemma RemovalsRegroup(
    w: World, run: map<string, Action>, groups: map<string, GroupView>, removals: seq<VersionRemoval>, p: string,
    g: GroupView)
    requires RemovalsFit(w, run, groups, removals) && p !in run
    ensures RemovalsFit(w, run, groups[p := g], removals)
  {
  }

  lemma ManagedMirror(g: GroupView, w: World, p: string)
    requires Mirrors(g, w, p)
    ensures Mirrors(g.(managed := true), w, p)
  {
  }

  lemma RotatedRoom(w: World, want: map<string, Want>, w': World, p: string, externalPath: string)
    requires WellFormed(w') && KeepsSecrets(w, w') && p in want && !NameTaken(w', want[p].versionName)
    ensures NextId(w') !in w.secrets && WellFormed(AddSecret(w', VersionSecret(p, externalPath, want[p])))
  {
    assert NextId(w') !in w'.secrets;
    AddKeepsWellFormed(w', VersionSecret(p, externalPath, want[p]));
  }

  lemma QueuingRotated(
    w: World, want: map<string, Want>, w': World, c: Work, services: seq<LoadedService>, p: string)
    requires Queuing(w, want, w', c) && Loads(services, c.groups, c.run, w)
    requires p in want && p !in c.run && p in c.groups && !LatestIs(w, p, want[p].versionId)
    requires !NameTaken(w', want[p].versionName)
    ensures Queuing(w, want, AddSecret(w', VersionSecret(p, c.groups[p].externalPath, want[p])),
                    Rotating(c, services, p, want[p], NextId(w')))
  {
    hide *;
    QueuingParts(w, want, w', c);
    LoadsAt(services, c.groups, c.run, w, p);
    MirrorsParent(c.groups[p], w, p);
    ManagedMirror(c.groups[p], w, p);
    var a, g, id := Rotated(NextId(w')), c.groups[p].(managed := true), NextId(w');
    RotatedTarget(w, want, c.run, p, id);
    StageRotated(w, want, c.run, w', p);
    StagedKeeps(w, want, c.run, w');
    RotatedRoom(w, want, w', p, g.externalPath);
    SoundGrows(w, want, c.run, c.queue, p, a);
    QueuedGroup(w, want, c.run[p := a], c.queue, services, g, None, Replacement(want[p].versionName, id));
    var q' := QueueServices(c.queue, services, g, None, Replacement(want[p].versionName, id));
    CompleteMore(w, want, c.run, c.queue, q', p, a);
    RemovalsRegroup(w, c.run, c.groups, c.removals, p, g);
    RotatedWork(w, want, c, p, g, id);
    RotatingIs(c, services, p, want[p], id);
    QueuingIs(w, want, AddSecret(w', VersionSecret(p, c.groups[p].externalPath, want[p])),
              Rotating(c, services, p, want[p], id));
  }

  lemma RotatedWork(w: World, want: map<string, Want>, c: Work, p: string, g: GroupView, id: SecretId)
    requires RemovalsFit(w, c.run, c.groups[p := g], c.removals) && RestoresFit(want, c.run, c.restores)
    requires p in want && p !in c.run && g.path == p
    ensures RemovalsFit(w, c.run[p := Rotated(id)], c.groups[p := g], c.removals + [VersionRemoval(g, true)])
    ensures RestoresFit(want, c.run[p := Rotated(id)], c.restores + [RestoreOf(g, want[p])])
  {
    RemovalsAppend(w, c.run, c.groups[p := g], c.removals, p, Rotated(id), VersionRemoval(g, true));
    RestoresAppend(want, c.run, c.restores, p, Rotated(id), RestoreOf(g, want[p]));
  }

  lemma RotatingIs(c: Work, services: seq<LoadedService>, p: string, wanted: Want, id: SecretId)
    requires p in c.groups
    ensures var c', g := Rotating(c, services, p, wanted, id), c.groups[p].(managed := true);
            c'.groups == c.groups[p := g] && c'.removals == c.removals + [VersionRemoval(g, true)] &&
            c'.queue == QueueServices(c.queue, services, g, None, Replacement(wanted.versionName, id)) &&
            c'.restores == c.restores + [RestoreOf(g, wanted)] && c'.run == c.run[p := Rotated(id)]
  {
  }

  lemma LatestKind(w: World, p: string, g: GroupView, versionId: string)
    requires WellFormed(w) && Mirrors(g, w, p)
    ensures LatestIs(w, p, versionId) <==> g.LatestVersion().externalId == versionId
  {
  }

  lemma AddedOne(w': World, secret: Secret)
    requires WellFormed(w')
    ensures |AddSecret(w', secret).secrets| == |w'.secrets| + 1 && AddSecret(w', secret) != w'
  {
  }

  lemma QueuingFacts(w: World, want: map<string, Want>, w': World, c: Work)
    requires Queuing(w, want, w', c)
    ensures w'.services == w.services && c.run.Keys <= want.Keys && "" !in want
    ensures WellFormed(w) && WellFormed(w') && Grown(w, want, w') && ClashesStay(w, want, w')
    ensures c.run.Keys == want.Keys ==> NamesFree(w, want)
  {
    StagedGrown(w, want, c.run, w');
    StagedClashes(w, want, c.run, w');
    if c.run.Keys == want.Keys {
      StagedNamesFree(w, want, c.run, w');
    }
  }

  // The name that the path needs is taken.
  ghost predicate NameBlocked(c: Work, w: World, p: string, wanted: Want) {
    if p !in c.groups then NameTaken(w, p)
    else c.groups[p].LatestVersion().externalId != wanted.versionId && NameTaken(w, wanted.versionName)
  }

  lemma NameBlockedIs(c: Work, services: seq<LoadedService>, w: World, p: string, wanted: Want)
    ensures NameBlocked(c, w, p, wanted) ==> forall c', w' :: !Processed(c, services, w, p, wanted, c', w')
    ensures !NameBlocked(c, w, p, wanted) && p !in c.groups ==> !NameTaken(w, p)
    ensures p in c.groups && c.groups[p].LatestVersion().externalId != wanted.versionId ==>
              (!NameBlocked(c, w, p, wanted) ==> !NameTaken(w, wanted.versionName))
  {
  }

  // A taken name was taken before the run, or is needed by two paths.
  lemma BlockedClash(
    w: World, want: map<string, Want>, w': World, c: Work, services: seq<LoadedService>, p: string)
    requires Queuing(w, want, w', c) && Loads(services, c.groups, c.run, w) && p in want && p !in c.run
    requires NameBlocked(c, w', p, want[p])
    ensures !NamesFree(w, want)
  {
    QueuingParts(w, want, w', c);
    LoadsAt(services, c.groups, c.run, w, p);
    hide Queuing, Loads;
    if p in c.groups {
      LatestKind(w, p, c.groups[p], want[p].versionId);
    }
    TakenOnTheWay(w, want, c.run, w', p);
  }

  // A path that was not met before in the run: processing it is refused for a taken name only if the names that the
  // run needs were not free, and it keeps all that holds between two external secrets.
  lemma ProcessedQueuing(
    w: World, want: map<string, Want>, w': World, c: Work, services: seq<LoadedService>, p: string)
    requires Queuing(w, want, w', c) && Loads(services, c.groups, c.run, w) && p in want && p !in c.run
    ensures NamesFree(w, want) ==> !NameBlocked(c, w', p, want[p])
    ensures forall c', w'' :: Processed(c, services, w', p, want[p], c', w'') ==>
              Queuing(w, want, w'', c') && Loads(services, c'.groups, c'.run, w) && Advances(c, w', p, c', w'')
  {
    hide *;
    QueuingFacts(w, want, w', c);
    LoadsAt(services, c.groups, c.run, w, p);
    NameBlockedIs(c, services, w', p, want[p]);
    if NameBlocked(c, w', p, want[p]) {
      BlockedClash(w, want, w', c, services, p);
    } else if p !in c.groups {
      QueuingCreated(w, want, w', c, p);
      AddedOne(w', ParentSecret(p, want[p]));
      LoadsMore(services, c.groups, c.run, w, p, Created(NextId(w')));
      ProcessedCreated(c, services, w', p, want[p]);
    } else {
      LatestKind(w, p, c.groups[p], want[p].versionId);
      if c.groups[p].LatestVersion().externalId == want[p].versionId {
        QueuingKept(w, want, w', c, services, p);
        LoadsMore(services, c.groups, c.run, w, p, Kept);
        ProcessedKept(c, services, w', p, want[p]);
      } else {
        QueuingRotated(w, want, w', c, services, p);
        AddedOne(w', VersionSecret(p, c.groups[p].externalPath, want[p]));
        LoadsMore(services, c.groups, c.run, w, p, Rotated(NextId(w')));
        ProcessedRotated(c, services, w', p, want[p]);
      }
    }
  }

  // One path more, counted once, with one new secret unless it was kept.
  ghost predicate Advances(c: Work, w: World, p: string, c': Work, w': World) {
    p in c'.run && c'.run == c.run[p := c'.run[p]] && c'.result == Count(c.result, c'.run[p]) &&
    if c'.run[p].Kept? then w' == w else |w'.secrets| == |w.secrets| + 1
  }

  lemma ProcessedCreated(c: Work, services: seq<LoadedService>, w: World, p: string, wanted: Want)
    requires p !in c.groups && |AddSecret(w, ParentSecret(p, wanted)).secrets| == |w.secrets| + 1
    ensures forall c', w' :: Processed(c, services, w, p, wanted, c', w') ==>
              c' == Creating(c, p, NextId(w)) && w' == AddSecret(w, ParentSecret(p, wanted)) &&
              c'.groups == c.groups && c'.run == c.run[p := Created(NextId(w))] && Advances(c, w, p, c', w')
  {
  }

  lemma ProcessedKept(c: Work, services: seq<LoadedService>, w: World, p: string, wanted: Want)
    requires p in c.groups && c.groups[p].LatestVersion().externalId == wanted.versionId
    ensures forall c', w' :: Processed(c, services, w, p, wanted, c', w') ==>
              c' == Keeping(c, services, p) && w' == w && c'.groups == c.groups && c'.run == c.run[p := Kept] &&
              Advances(c, w, p, c', w')
  {
  }

  lemma ProcessedRotated(c: Work, services: seq<LoadedService>, w: World, p: string, wanted: Want)
    requires p in c.groups && c.groups[p].LatestVersion().externalId != wanted.versionId && c.groups[p].path == p
    requires |AddSecret(w, VersionSecret(p, c.groups[p].externalPath, wanted)).secrets| == |w.secrets| + 1
    ensures forall c', w' :: Processed(c, services, w, p, wanted, c', w') ==>
              c' == Rotating(c, services, p, wanted, NextId(w)) &&
              w' == AddSecret(w, VersionSecret(p, c.groups[p].externalPath, wanted)) &&
              c'.groups == c.groups[p := c.groups[p].(managed := true)] &&
              c'.run == c.run[p := Rotated(NextId(w))] && Advances(c, w, p, c', w')
  {
  }

  // ---------------------------------------------------------------- counters, journal and faults

  ghost function CreatedPaths(run: map<string, Action>): set<string> {
    set p | p in run && run[p].Created?
  }

  ghost function RotatedPaths(run: map<string, Action>): set<string> {
    set p | p in run && run[p].Rotated?
  }

  ghost function KeptPaths(run: map<string, Action>): set<string> {
    set p | p in run && run[p].Kept?
  }

  // The counters say how many paths were created, updated and skipped.
  ghost predicate Tally(result: SyncResult, run: map<string, Action>) {
    result.created == |CreatedPaths(run)| && result.updated == |RotatedPaths(run)| &&
    result.skipped == |KeptPaths(run)|
  }

  function Count(result: SyncResult, a: Action): SyncResult {
    match a
    case Created(_) => result.(created := result.created + 1)
    case Rotated(_) => result.(updated := result.updated + 1)
    case Kept => result.(skipped := result.skipped + 1)
  }

  lemma PathsMore(run: map<string, Action>, p: string, a: Action)
    requires p !in run
    ensures CreatedPaths(run[p := a]) == CreatedPaths(run) + if a.Created? then {p} else {}
    ensures RotatedPaths(run[p := a]) == RotatedPaths(run) + if a.Rotated? then {p} else {}
    ensures KeptPaths(run[p := a]) == KeptPaths(run) + if a.Kept? then {p} else {}
    ensures p !in CreatedPaths(run) && p !in RotatedPaths(run) && p !in KeptPaths(run)
  {
  }

  lemma TallyMore(result: SyncResult, run: map<string, Action>, p: string, a: Action)
    requires Tally(result, run) && p !in run
    ensures Tally(Count(result, a), run[p := a])
  {
    PathsMore(run, p, a);
    hide CreatedPaths, RotatedPaths, KeptPaths;
  }

  lemma TallySum(result: SyncResult, run: map<string, Action>)
    requires Tally(result, run)
    ensures result.created + result.updated + result.skipped == |run|
  {
    assert CreatedPaths(run) + RotatedPaths(run) + KeptPaths(run) == run.Keys;
    assert CreatedPaths(run) !! RotatedPaths(run) !! KeptPaths(run);
    assert |CreatedPaths(run) + RotatedPaths(run)| == |CreatedPaths(run)| + |RotatedPaths(run)|;
  }

  ghost predicate AllKept(run: map<string, Action>) {
    forall p :: p in run ==> run[p].Kept?
  }

  // A moment of a run.
  datatype Mark = Mark(world: World, journal: seq<Call>, faults: nat)

  // What one external secret does besides the work.
  ghost predicate Stepped(ok: bool, c: Work, c': Work, from: Mark, to: Mark) {
    Calm(from.journal, to.journal) &&
    if ok then to.faults == from.faults && (to.world == from.world ==> to.journal == from.journal)
    else to.faults >= from.faults && to.world == from.world && c' == c
  }

  // The outcomes of the three branches are those of the whole.
  lemma ProcessedIs(
    ok: bool, c: Work, services: seq<LoadedService>, p: string, wanted: Want, c': Work, from: Mark, to: Mark)
    requires Calm(from.journal, to.journal) && to.faults >= from.faults && (ok ==> to.faults == from.faults)
    requires !ok ==> to.world == from.world && c' == c
    requires p !in c.groups ==>
               if ok then
                 !NameTaken(from.world, p) && to.world == AddSecret(from.world, ParentSecret(p, wanted)) &&
                 c' == Creating(c, p, NextId(from.world))
               else to.faults > from.faults || NameTaken(from.world, p)
    requires p in c.groups && c.groups[p].LatestVersion().externalId == wanted.versionId ==>
               ok && to.world == from.world && to.journal == from.journal && c' == Keeping(c, services, p)
    requires p in c.groups && c.groups[p].LatestVersion().externalId != wanted.versionId ==>
               if ok then
                 !NameTaken(from.world, wanted.versionName) &&
                 to.world == AddSecret(from.world, VersionSecret(c.groups[p].path, c.groups[p].externalPath, wanted)) &&
                 c' == Rotating(c, services, p, wanted, NextId(from.world))
               else to.faults > from.faults || NameTaken(from.world, wanted.versionName)
    ensures ok ==> Processed(c, services, from.world, p, wanted, c', to.world)
    ensures ok || to.faults > from.faults || NameBlocked(c, from.world, p, wanted)
    ensures Stepped(ok, c, c', from, to)
  {
  }

  lemma AdvancesRun(c: Work, w: World, p: string, c': Work, w': World)
    requires Advances(c, w, p, c', w')
    ensures p in c'.run && c'.run == c.run[p := c'.run[p]]
  {
  }

  // Counters, journal and faults after the paths of the work.
  ghost predicate Progress(c: Work, from: Mark, to: Mark) {
    Tally(c.result, c.run) && c.result.removedSecrets == 0 && c.result.removedSecretVersions == 0 &&
    |to.world.secrets| == |from.world.secrets| + c.result.created + c.result.updated &&
    Calm(from.journal, to.journal) && to.faults == from.faults &&
    (AllKept(c.run) ==> to.journal == from.journal && to.world == from.world)
  }

  lemma ProgressMore(p: string, c: Work, c': Work, start: Mark, from: Mark, to: Mark)
    requires Progress(c, start, from) && p !in c.run
    requires Stepped(true, c, c', from, to) && Advances(c, from.world, p, c', to.world)
    ensures Progress(c', start, to)
  {
    TallyMore(c.result, c.run, p, c'.run[p]);
    CalmMore(start.journal, from.journal, to.journal);
    if AllKept(c'.run) {
      forall q | q in c.run ensures c.run[q].Kept? {
        assert c'.run[q].Kept?;
      }
      assert AllKept(c.run);
    }
  }

  // What a failure in step 3 leaves.
  ghost predicate Stopped(result: SyncResult, want: map<string, Want>, from: Mark, to: Mark) {
    WellFormed(to.world) && to.world.services == from.world.services && Calm(from.journal, to.journal) &&
    Grown(from.world, want, to.world) && ClashesStay(from.world, want, to.world) &&
    to.faults >= from.faults && (to.faults > from.faults || !NamesFree(from.world, want)) &&
    result.removedSecrets == 0 && result.removedSecretVersions == 0 &&
    |to.world.secrets| == |from.world.secrets| + result.created + result.updated
  }

  // A failure leaves what the previous paths made.
  lemma ProgressStops(w: World, want: map<string, Want>, c: Work, c': Work, start: Mark, from: Mark, to: Mark)
    requires Queuing(w, want, from.world, c) && start.world == w
    requires Progress(c, start, from) && Stepped(false, c, c', from, to)
    requires to.faults > from.faults || !NamesFree(w, want)
    ensures Stopped(c'.result, want, start, to)
  {
    CalmMore(start.journal, from.journal, to.journal);
    QueuingFacts(w, want, from.world, c);
  }

  lemma ProgressFacts(c: Work, from: Mark, to: Mark)
    requires Progress(c, from, to)
    ensures Calm(from.journal, to.journal) && to.faults == from.faults
    ensures c.result.removedSecrets == 0 && c.result.removedSecretVersions == 0
    ensures |to.world.secrets| == |from.world.secrets| + c.result.created + c.result.updated
  {
  }

  lemma ProgressStart(c: Work, m: Mark)
    requires c.result == SyncResult(0, 0, 0, 0, 0) && c.run == map[]
    ensures Progress(c, m, m)
  {
  }

  // Exactly the external secrets that are still to do have no action yet.
  ghost predicate Remaining(
    todo: set<string>, listing: map<string, External>, config: Config, run: map<string, Action>)
  {
    todo <= listing.Keys &&
    forall k :: k in listing ==> (k in todo <==> PreparePath(listing[k].path, config.delimiter) !in run)
  }

  lemma RemainingStart(listing: map<string, External>, config: Config)
    ensures Remaining(listing.Keys, listing, config, map[])
  {
  }

  lemma RemainingAt(
    todo: set<string>, listing: map<string, External>, config: Config, run: map<string, Action>, k: string)
    requires Remaining(todo, listing, config, run) && k in todo
    ensures k in listing && PreparePath(listing[k].path, config.delimiter) !in run
  {
  }

  lemma RemainingLess(
    want: map<string, Want>, todo: set<string>, listing: map<string, External>, payloads: map<string, string>,
    config: Config, run: map<string, Action>, k: string, a: Action)
    requires Describes(want, listing, payloads, config) && Remaining(todo, listing, config, run) && k in todo
    ensures Remaining(todo - {k}, listing, config, run[PreparePath(listing[k].path, config.delimiter) := a])
  {
  }

  lemma RemainingNone(
    want: map<string, Want>, listing: map<string, External>, payloads: map<string, string>, config: Config,
    run: map<string, Action>)
    requires Describes(want, listing, payloads, config) && Remaining({}, listing, config, run)
    requires run.Keys <= want.Keys
    ensures run.Keys == want.Keys
  {
  }
}
