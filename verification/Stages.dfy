// The stages of one run as relations between the loaded state and the current one, and what each request
// of a stage does to them.
module Stages {
  import opened Docker
  import opened Rotation
  import opened Rollout

  // `i` was created during the run, with this content.
  ghost predicate IsNew(w: World, w': World, i: SecretId, secret: Secret) {
    i.serial >= w.serial && i !in w.secrets && i in w'.secrets && w'.secrets[i].updatedAt >= w.now &&
    w'.secrets[i].(updatedAt := 0) == secret
  }

  ghost predicate Rotates(w: World, want: map<string, Want>, p: string, w': World, version: SecretId)
    requires p in want
  {
    Parented(w, p) && IsNew(w, w', version, VersionSecret(p, w.secrets[ParentOf(w, p)].externalPath, want[p]))
  }

  ghost predicate Acted(w: World, want: map<string, Want>, p: string, a: Action, w': World)
    requires p in want
  {
    ActionFits(w, want, p, a) &&
    (a.Created? ==> IsNew(w, w', a.parent, ParentSecret(p, want[p]))) &&
    (a.Rotated? ==> Rotates(w, want, p, w', a.version))
  }

  ghost predicate NewAt(run: map<string, Action>, p: string, i: SecretId) {
    p in run && (run[p] == Created(i) || run[p] == Rotated(i))
  }

  ghost predicate KeepsSecrets(w: World, w': World) {
    forall i :: i in w.secrets ==> i in w'.secrets && w'.secrets[i] == w.secrets[i]
  }

  // The secret is what the snapshot makes of its path: the parent or a version, up to its time.
  ghost predicate MadeFor(want: map<string, Want>, s: Secret) {
    s.logicalPath in want &&
    (s.(updatedAt := 0) == ParentSecret(s.logicalPath, want[s.logicalPath]) ||
     s.(updatedAt := 0) == VersionSecret(s.logicalPath, s.externalPath, want[s.logicalPath]))
  }

  // Nothing old is changed, and whatever is new is what the snapshot makes of some path.
  ghost predicate Grown(w: World, want: map<string, Want>, w': World) {
    w'.serial >= w.serial && w'.now >= w.now &&
    forall i :: i in w'.secrets ==>
      (i in w.secrets && w'.secrets[i] == w.secrets[i]) ||
      (i.serial >= w.serial && w'.secrets[i].updatedAt >= w.now && MadeFor(want, w'.secrets[i]))
  }

  lemma GrownMore(w: World, want: map<string, Want>, w': World, w'': World)
    requires Grown(w, want, w') && Grown(w', want, w'')
    ensures Grown(w, want, w'')
  {
  }

  lemma GrownAt(w: World, want: map<string, Want>, w': World, i: SecretId)
    requires Grown(w, want, w') && i in w'.secrets
    ensures (i in w.secrets && w'.secrets[i] == w.secrets[i]) ||
            (w'.secrets[i].updatedAt >= w.now &&
             var q := w'.secrets[i].logicalPath;
             q in want && w'.secrets[i].externalId == want[q].versionId &&
             (w'.secrets[i].name == q || w'.secrets[i].name == want[q].versionName))
  {
  }

  lemma HolderKept(w: World, want: map<string, Want>, w': World, p: string, i: SecretId)
    requires Compatible(w, want) && Grown(w, want, w') && p in want
    requires i in w'.secrets && w'.secrets[i].name == want[p].versionName
    ensures w'.secrets[i].logicalPath == p && w'.secrets[i].externalId == want[p].versionId
  {
    GrownAt(w, want, w', i);
    assert VersionNameKept(w, p, want[p]);
  }

  lemma GroupKept(w: World, want: map<string, Want>, w': World, p: string, i: SecretId, j: SecretId)
    requires Ready(w, want) && Grown(w, want, w') && NamesUnique(w') && p in want && j != i
    requires i in w'.secrets && w'.secrets[i].name == want[p].versionName && InGroup(w', p, j)
    ensures w'.secrets[j].updatedAt < w'.secrets[i].updatedAt ||
            (w'.secrets[j].name == p && w'.secrets[j].externalId == want[p].versionId)
  {
    GrownAt(w, want, w', i);
    GrownAt(w, want, w', j);
    assert VersionNameKept(w, p, want[p]);
    assert j in w.secrets && w'.secrets[j] == w.secrets[j] ==> InGroup(w, p, j);
    hide MadeFor, Grown;
  }

  // A ready state stays ready for its snapshot, whatever fails.
  lemma GrownReady(w: World, want: map<string, Want>, w': World)
    requires Ready(w, want) && Grown(w, want, w') && WellFormed(w')
    ensures Ready(w', want)
  {
    forall p | p in want ensures VersionNameKept(w', p, want[p]) {
      forall i | i in w'.secrets && w'.secrets[i].name == want[p].versionName
        ensures w'.secrets[i].logicalPath == p && w'.secrets[i].externalId == want[p].versionId
        ensures forall j :: InGroup(w', p, j) && j != i ==>
                  w'.secrets[j].updatedAt < w'.secrets[i].updatedAt ||
                  (w'.secrets[j].name == p && w'.secrets[j].externalId == want[p].versionId)
      {
        HolderKept(w, want, w', p, i);
        forall j | InGroup(w', p, j) && j != i
          ensures w'.secrets[j].updatedAt < w'.secrets[i].updatedAt ||
                  (w'.secrets[j].name == p && w'.secrets[j].externalId == want[p].versionId)
        {
          GroupKept(w, want, w', p, i, j);
        }
      }
    }
    forall p, i | p in want && i in w'.secrets && w'.secrets[i].name == p ensures w'.secrets[i].logicalPath == p {
      GrownAt(w, want, w', i);
    }
  }

  lemma GrownSame(w: World, want: map<string, Want>, w': World)
    requires w'.secrets == w.secrets && w'.serial >= w.serial && w'.now >= w.now
    ensures Grown(w, want, w')
  {
  }

  // ---------------------------------------------------------------- step 3: creations only

  ghost predicate Staged(w: World, want: map<string, Want>, run: map<string, Action>, w': World) {
    w'.services == w.services && w'.serial >= w.serial && w'.now >= w.now && KeepsSecrets(w, w') &&
    (forall p :: p in run ==> p in want && Acted(w, want, p, run[p], w')) &&
    (forall i :: i in w'.secrets && i !in w.secrets ==> NewAt(run, w'.secrets[i].logicalPath, i))
  }

  lemma StagedFresh(w: World, want: map<string, Want>, run: map<string, Action>, w': World)
    requires Staged(w, want, run, w')
    ensures RunFresh(w, run)
  {
  }

  lemma StagedKeeps(w: World, want: map<string, Want>, run: map<string, Action>, w': World)
    requires Staged(w, want, run, w')
    ensures KeepsSecrets(w, w')
  {
  }

  lemma StagedGrown(w: World, want: map<string, Want>, run: map<string, Action>, w': World)
    requires Staged(w, want, run, w')
    ensures Grown(w, want, w')
  {
  }

  // One more path: its action fits, and the state gained exactly its new secret, if any.
  lemma StagedMore(
    w: World, want: map<string, Want>, run: map<string, Action>, w': World, w'': World, p: string, a: Action)
    requires WellFormed(w') && Staged(w, want, run, w') && p in want && p !in run
    requires Acted(w, want, p, a, w'') && KeepsSecrets(w', w'')
    requires w''.services == w'.services && w''.serial >= w'.serial && w''.now >= w'.now
    requires forall i :: i in w''.secrets && i !in w'.secrets ==>
               w''.secrets[i].logicalPath == p && (a == Created(i) || a == Rotated(i))
    ensures Staged(w, want, run[p := a], w'')
  {
    forall q | q in run[p := a] ensures q in want && Acted(w, want, q, run[p := a][q], w'') {
      if q != p {
        assert Acted(w, want, q, run[q], w');
      }
    }
    forall i | i in w''.secrets && i !in w.secrets ensures NewAt(run[p := a], w''.secrets[i].logicalPath, i) {
      if i in w'.secrets {
        assert NewAt(run, w'.secrets[i].logicalPath, i);
      }
    }
  }

  lemma StageKept(w: World, want: map<string, Want>, run: map<string, Action>, w': World, p: string)
    requires WellFormed(w') && Staged(w, want, run, w') && p in want && p !in run
    requires Parented(w, p) && LatestIs(w, p, want[p].versionId)
    ensures Staged(w, want, run[p := Kept], w')
  {
    StagedMore(w, want, run, w', w', p, Kept);
  }

  lemma StageCreated(w: World, want: map<string, Want>, run: map<string, Action>, w': World, p: string)
    requires WellFormed(w') && Staged(w, want, run, w') && p in want && p !in run && !Parented(w, p)
    ensures Staged(w, want, run[p := Created(NextId(w'))], AddSecret(w', ParentSecret(p, want[p])))
  {
    var w'' := AddSecret(w', ParentSecret(p, want[p]));
    assert NextId(w') !in w'.secrets;
    StagedMore(w, want, run, w', w'', p, Created(NextId(w')));
  }

  lemma StageRotated(w: World, want: map<string, Want>, run: map<string, Action>, w': World, p: string)
    requires WellFormed(w') && Staged(w, want, run, w') && p in want && p !in run
    requires Parented(w, p) && !LatestIs(w, p, want[p].versionId)
    ensures var secret := VersionSecret(p, w.secrets[ParentOf(w, p)].externalPath, want[p]);
            Staged(w, want, run[p := Rotated(NextId(w'))], AddSecret(w', secret))
  {
    var secret := VersionSecret(p, w.secrets[ParentOf(w, p)].externalPath, want[p]);
    assert NextId(w') !in w'.secrets;
    StagedMore(w, want, run, w', AddSecret(w', secret), p, Rotated(NextId(w')));
  }

  // ---------------------------------------------------------------- step 3: taken names

  // A path that needs a name has it once it is processed.
  lemma NameGiven(
    w: World, want: map<string, Want>, run: map<string, Action>, w': World, p: string) returns (i: SecretId)
    requires Staged(w, want, run, w') && p in run && NeedsName(w, want, p)
    ensures i in w'.secrets && i !in w.secrets && w'.secrets[i].logicalPath == p
    ensures w'.secrets[i].name == NeededName(w, want, p)
  {
    assert Acted(w, want, p, run[p], w');
    i := if run[p].Created? then run[p].parent else run[p].version;
  }

  // A secret that the run made has the name that its path needed.
  lemma NameMade(w: World, want: map<string, Want>, run: map<string, Action>, w': World, i: SecretId)
    requires Staged(w, want, run, w') && i in w'.secrets && i !in w.secrets
    ensures var q := w'.secrets[i].logicalPath;
            q in run && NeedsName(w, want, q) && w'.secrets[i].name == NeededName(w, want, q)
  {
  }

  // A path that is not yet processed needs what it needed.
  lemma NeedsSame(w: World, want: map<string, Want>, run: map<string, Action>, w': World, p: string)
    requires Staged(w, want, run, w') && p in want && p !in run
    ensures NeedsName(w', want, p) <==> NeedsName(w, want, p)
    ensures NeededName(w', want, p) == NeededName(w, want, p)
  {
    forall i ensures InGroup(w', p, i) <==> InGroup(w, p, i) {
      assert i in w'.secrets && i !in w.secrets ==> NewAt(run, w'.secrets[i].logicalPath, i);
    }
    assert forall i :: IsParent(w', p, i) <==> InGroup(w', p, i) && w'.secrets[i].name == p;
    assert forall i :: IsParent(w, p, i) <==> InGroup(w, p, i) && w.secrets[i].name == p;
  }

  // A name that is taken on the way was taken at the beginning, or given to another path that needed it.
  lemma TakenOnTheWay(w: World, want: map<string, Want>, run: map<string, Action>, w': World, p: string)
    requires Staged(w, want, run, w') && p !in run && NeedsName(w, want, p)
    requires NameTaken(w', NeededName(w, want, p))
    ensures !NamesFree(w, want)
  {
    var i :| i in w'.secrets && w'.secrets[i].name == NeededName(w, want, p);
    if i in w.secrets {
      assert Blocked(w, want, p);
    } else {
      NameMade(w, want, run, w', i);
    }
  }

  // Step 3 gets through only when the names were free.
  lemma StagedNamesFree(w: World, want: map<string, Want>, run: map<string, Action>, w': World)
    requires Staged(w, want, run, w') && NamesUnique(w') && run.Keys == want.Keys
    ensures NamesFree(w, want)
  {
    forall p ensures !Blocked(w, want, p) {
      if NeedsName(w, want, p) {
        var i := NameGiven(w, want, run, w', p);
      }
    }
    forall p, q | NeedsName(w, want, p) && NeedsName(w, want, q) && NeededName(w, want, p) == NeededName(w, want, q)
      ensures p == q
    {
      var i := NameGiven(w, want, run, w', p);
      var j := NameGiven(w, want, run, w', q);
    }
  }

  // A path that could not get its name still cannot.
  lemma StaysBlocked(w: World, want: map<string, Want>, run: map<string, Action>, w': World, p: string)
    requires Staged(w, want, run, w') && NamesUnique(w') && Blocked(w, want, p)
    ensures Blocked(w', want, p)
  {
    if p in run {
      var i := NameGiven(w, want, run, w', p);
      assert false;
    } else {
      NeedsSame(w, want, run, w', p);
    }
  }

  // What a run that did not get through leaves of the clashes that it met.
  ghost predicate ClashesStay(w: World, want: map<string, Want>, w': World) {
    (forall p :: Blocked(w, want, p) ==> Blocked(w', want, p)) && (!NamesFree(w, want) ==> !NamesFree(w', want))
  }

  lemma StagedClashes(w: World, want: map<string, Want>, run: map<string, Action>, w': World)
    requires Staged(w, want, run, w') && NamesUnique(w')
    ensures ClashesStay(w, want, w')
  {
    forall p | Blocked(w, want, p) ensures Blocked(w', want, p) {
      StaysBlocked(w, want, run, w', p);
    }
    if !NamesFree(w, want) && forall p :: !Blocked(w, want, p) {
      var p, q :| NeedsName(w, want, p) && NeedsName(w, want, q) &&
                  NeededName(w, want, p) == NeededName(w, want, q) && p != q;
      TwoStay(w, want, run, w', p, q);
    }
  }

  // Two paths that need one name.
  lemma TwoStay(w: World, want: map<string, Want>, run: map<string, Action>, w': World, p: string, q: string)
    requires Staged(w, want, run, w') && NamesUnique(w') && NeedsName(w, want, p) && NeedsName(w, want, q) && p != q
    requires NeededName(w, want, p) == NeededName(w, want, q)
    ensures !NamesFree(w', want)
  {
    if p in run && q in run {
      var i := NameGiven(w, want, run, w', p);
      var j := NameGiven(w, want, run, w', q);
      assert false;
    } else if p in run {
      var i := NameGiven(w, want, run, w', p);
      NeedsSame(w, want, run, w', q);
      assert Blocked(w', want, q);
    } else if q in run {
      var i := NameGiven(w, want, run, w', q);
      NeedsSame(w, want, run, w', p);
      assert Blocked(w', want, p);
    } else {
      NeedsSame(w, want, run, w', p);
      NeedsSame(w, want, run, w', q);
    }
  }

  // ---------------------------------------------------------------- step 4: references

  // The references that the run gives to a service resolve in the state after step 3.
  lemma MovedResolve(
    w: World, want: map<string, Want>, run: map<string, Action>, w': World, s: ServiceId, k: int)
    requires WellFormed(w) && KeepsSecrets(w, w')
    requires forall p :: p in run ==> p in want && Acted(w, want, p, run[p], w')
    requires s in w.services && 0 <= k < |w.services[s].refs|
    ensures Resolves(w', MoveAll(w, want, run, w.services[s].refs)[k])
  {
  }

  // A service after the rollout: an update raises its version, and only a service that has something to move is
  // updated.
  ghost function MovedService(w: World, want: map<string, Want>, run: map<string, Action>, service: Service): Service {
    var refs := MoveAll(w, want, run, service.refs);
    Service(if refs == service.refs then service.version else service.version + 1, refs)
  }

  ghost predicate Moved(w: World, want: map<string, Want>, run: map<string, Action>, w': World) {
    w'.services.Keys == w.services.Keys &&
    forall s :: s in w.services ==> w'.services[s] == MovedService(w, want, run, w.services[s])
  }

  // No moved reference points to a secret that step 5 removes.
  lemma MovedNotDropped(w: World, want: map<string, Want>, run: map<string, Action>, r: Ref)
    requires WellFormed(w) && RunFresh(w, run) && Resolves(w, r)
    requires forall p :: p in run ==> p in want && ActionFits(w, want, p, run[p])
    ensures !Dropped(w, run, Move(w, want, run, r).secretId)
  {
  }

  // Once every service is moved, nothing that step 5 removes is in use.
  lemma DroppedUnused(w: World, want: map<string, Want>, run: map<string, Action>, w': World, i: SecretId)
    requires WellFormed(w) && RunFresh(w, run) && Moved(w, want, run, w')
    requires forall p :: p in run ==> p in want && ActionFits(w, want, p, run[p])
    requires Dropped(w, run, i)
    ensures !InUse(w', i)
  {
    forall s, k | s in w'.services && 0 <= k < |w'.services[s].refs|
      ensures w'.services[s].refs[k].secretId != i
    {
      assert Resolves(w, w.services[s].refs[k]);
      MovedNotDropped(w, want, run, w.services[s].refs[k]);
    }
  }

  // ---------------------------------------------------------------- step 5: removals

  ghost function DroppedSet(w: World, run: map<string, Action>): set<SecretId> {
    set i | i in w.secrets && Dropped(w, run, i)
  }

  // ---------------------------------------------------------------- step 6: parents again

  ghost predicate RestoredAt(
    w: World, want: map<string, Want>, run: map<string, Action>, p: string, parent: SecretId, w': World)
  {
    p in want && p in run && run[p].Rotated? && IsNew(w, w', parent, ParentSecret(p, want[p]))
  }

  ghost predicate Restored(
    w: World, want: map<string, Want>, run: map<string, Action>, restored: map<string, SecretId>, w': World)
  {
    w'.services == w.services && w'.serial >= w.serial && w'.now >= w.now && KeepsSecrets(w, w') &&
    (forall p :: p in restored ==> RestoredAt(w, want, run, p, restored[p], w')) &&
    (forall i :: i in w'.secrets && i !in w.secrets ==>
       w'.secrets[i].logicalPath in restored && restored[w'.secrets[i].logicalPath] == i)
  }

  // What is left of a rotated group after step 5 is the new version alone.
  lemma RotatedLeft(
    w: World, want: map<string, Want>, run: map<string, Action>, w3: World, w5: World, p: string, i: SecretId)
    requires Staged(w, want, run, w3) && p in run && run[p].Rotated?
    requires w5.secrets == w3.secrets - DroppedSet(w, run)
    ensures InGroup(w5, p, i) <==> i == run[p].version
    ensures w5.secrets[run[p].version] == w3.secrets[run[p].version]
  {
    assert Acted(w, want, p, run[p], w3);
    if InGroup(w5, p, i) {
      assert i in w.secrets ==> Dropped(w, run, i);
      assert i !in w.secrets ==> NewAt(run, p, i);
    }
  }

  lemma RestoredGrown(
    w: World, want: map<string, Want>, run: map<string, Action>, restored: map<string, SecretId>, w': World)
    requires Restored(w, want, run, restored, w')
    ensures Grown(w, want, w')
  {
  }

  // The parent's name is free again: the removal of the group freed it, and nothing else has it.
  lemma RestoreNameFree(
    w: World, want: map<string, Want>, run: map<string, Action>, restored: map<string, SecretId>,
    w3: World, w5: World, w': World, p: string)
    requires Staged(w, want, run, w3) && WellFormed(w3) && w5.secrets == w3.secrets - DroppedSet(w, run)
    requires Restored(w5, want, run, restored, w')
    requires p in run && run[p].Rotated? && p !in restored
    ensures !NameTaken(w', p)
  {
    assert Acted(w, want, p, run[p], w3);
    var parent := ParentOf(w, p);
    assert parent in DroppedSet(w, run) && w3.secrets[parent].name == p;
    forall i | i in w'.secrets ensures w'.secrets[i].name != p {
      if i !in w5.secrets {
        assert RestoredAt(w5, want, run, w'.secrets[i].logicalPath, i, w');
      }
    }
  }

  lemma RestoreOne(
    w5: World, want: map<string, Want>, run: map<string, Action>, restored: map<string, SecretId>, w': World,
    p: string)
    requires InPast(w') && Restored(w5, want, run, restored, w')
    requires p in want && p in run && run[p].Rotated? && p !in restored && w5.now <= w'.now && w5.serial <= w'.serial
    ensures Restored(w5, want, run, restored[p := NextId(w')], AddSecret(w', ParentSecret(p, want[p])))
  {
  }

  // ---------------------------------------------------------------- step 7: orphans

  ghost function OrphanSet(w: World, want: map<string, Want>): set<SecretId> {
    set i | i in w.secrets && Orphan(w, want, w.secrets[i].logicalPath)
  }

  lemma OrphanUnused(w: World, want: map<string, Want>, i: SecretId)
    requires i in OrphanSet(w, want)
    ensures !InUse(w, i)
  {
  }

  // ---------------------------------------------------------------- a whole run

  // What a completed run leaves at one wanted path.
  ghost predicate PathOutcome(
    w: World, want: map<string, Want>, p: string, a: Action, restored: map<string, SecretId>, w': World)
    requires p in want
  {
    ActionFits(w, want, p, a) &&
    match a
    case Created(parent) =>
      IsNew(w, w', parent, ParentSecret(p, want[p])) &&
      (forall i :: InGroup(w', p, i) <==> InGroup(w, p, i) || i == parent) &&
      (forall i :: InGroup(w, p, i) ==> w'.secrets[i] == w.secrets[i])
    case Kept =>
      (forall i :: InGroup(w', p, i) <==> InGroup(w, p, i) && (Managed(w, p) ==> IsParent(w, p, i))) &&
      (forall i :: InGroup(w', p, i) ==> w'.secrets[i] == w.secrets[i])
    case Rotated(version) =>
      p in restored && restored[p] != version &&
      (forall i :: InGroup(w', p, i) <==> i == version || i == restored[p]) &&
      Rotates(w, want, p, w', version) && IsNew(w, w', restored[p], ParentSecret(p, want[p])) &&
      w'.secrets[version].updatedAt < w'.secrets[restored[p]].updatedAt
  }

  // A completed run takes `w` to `w'`: each wanted path has its outcome, all references are moved, other groups
  // stay as they are, except that the cleanup takes the orphans whole.
  ghost predicate SyncPost(
    w: World, want: map<string, Want>, run: map<string, Action>, restored: map<string, SecretId>, cleanup: bool,
    w': World)
  {
    run.Keys == want.Keys &&
    (forall p :: p in want ==> PathOutcome(w, want, p, run[p], restored, w')) &&
    (forall q, i :: q !in want ==>
       (InGroup(w', q, i) <==> InGroup(w, q, i) && !(cleanup && Orphan(w, want, q)))) &&
    (forall i :: i in w'.secrets && w'.secrets[i].logicalPath !in want ==>
       i in w.secrets && w'.secrets[i] == w.secrets[i]) &&
    Moved(w, want, run, w') && w'.serial >= w.serial && w'.now >= w.now
  }

  lemma AssemblePath(
    w: World, want: map<string, Want>, run: map<string, Action>, restored: map<string, SecretId>,
    w3: World, w5: World, w6: World, p: string)
    requires Staged(w, want, run, w3) && InPast(w) && InPast(w3) && p in want && p in run
    requires w5.secrets == w3.secrets - DroppedSet(w, run) && w5.now == w3.now && w5.serial == w3.serial
    requires Restored(w5, want, run, restored, w6)
    requires run[p].Rotated? ==> p in restored
    ensures PathOutcome(w, want, p, run[p], restored, w6)
  {
    assert Acted(w, want, p, run[p], w3);
    match run[p]
    case Created(parent) =>
      forall i ensures InGroup(w6, p, i) <==> InGroup(w, p, i) || i == parent {
        CreatedGroup(w, want, run, restored, w3, w5, w6, p, i);
      }
    case Kept =>
      forall i ensures InGroup(w6, p, i) <==> InGroup(w, p, i) && (Managed(w, p) ==> IsParent(w, p, i)) {
        KeptGroup(w, want, run, restored, w3, w5, w6, p, i);
      }
    case Rotated(version) =>
      AssembleRotated(w, want, run, restored, w3, w5, w6, p);
  }

  lemma AssembleRotated(
    w: World, want: map<string, Want>, run: map<string, Action>, restored: map<string, SecretId>,
    w3: World, w5: World, w6: World, p: string)
    requires Staged(w, want, run, w3) && InPast(w) && InPast(w3)
    requires p in want && p in run && run[p].Rotated? && p in restored
    requires w5.secrets == w3.secrets - DroppedSet(w, run) && w5.now == w3.now && w5.serial == w3.serial
    requires Restored(w5, want, run, restored, w6)
    ensures PathOutcome(w, want, p, run[p], restored, w6)
  {
    var version := run[p].version;
    assert Acted(w, want, p, run[p], w3);
    assert RestoredAt(w5, want, run, p, restored[p], w6);
    RotatedLeft(w, want, run, w3, w5, p, version);
    RotatedLeft(w, want, run, w3, w5, p, restored[p]);
    forall i ensures InGroup(w6, p, i) <==> i == version || i == restored[p] {
      RotatedLeft(w, want, run, w3, w5, p, i);
    }
  }

  lemma CreatedGroup(
    w: World, want: map<string, Want>, run: map<string, Action>, restored: map<string, SecretId>,
    w3: World, w5: World, w6: World, p: string, i: SecretId)
    requires Staged(w, want, run, w3) && p in run && run[p].Created?
    requires w5.secrets == w3.secrets - DroppedSet(w, run) && Restored(w5, want, run, restored, w6)
    ensures InGroup(w6, p, i) <==> InGroup(w, p, i) || i == run[p].parent
  {
  }

  lemma KeptGroup(
    w: World, want: map<string, Want>, run: map<string, Action>, restored: map<string, SecretId>,
    w3: World, w5: World, w6: World, p: string, i: SecretId)
    requires Staged(w, want, run, w3) && p in run && run[p].Kept?
    requires w5.secrets == w3.secrets - DroppedSet(w, run) && Restored(w5, want, run, restored, w6)
    ensures InGroup(w6, p, i) <==> InGroup(w, p, i) && (Managed(w, p) ==> IsParent(w, p, i))
  {
  }

  // A group that is not wanted is untouched before the cleanup.
  lemma OtherGroup(
    w: World, want: map<string, Want>, run: map<string, Action>, restored: map<string, SecretId>,
    w3: World, w5: World, w6: World, q: string, i: SecretId)
    requires Staged(w, want, run, w3) && q !in want
    requires w5.secrets == w3.secrets - DroppedSet(w, run) && Restored(w5, want, run, restored, w6)
    ensures InGroup(w6, q, i) <==> InGroup(w, q, i)
    ensures InGroup(w6, q, i) ==> w6.secrets[i] == w.secrets[i]
  {
  }

  lemma UsedOutside(w: World, want: map<string, Want>, run: map<string, Action>, w': World, q: string)
    requires RefsResolve(w) && RunFresh(w, run) && q !in want && Moved(w, want, run, w')
    requires forall i :: InGroup(w', q, i) <==> InGroup(w, q, i)
    ensures Used(w', q) <==> Used(w, q)
  {
  }

  lemma OrphanOutside(w: World, want: map<string, Want>, run: map<string, Action>, w': World, q: string)
    requires RefsResolve(w) && RunFresh(w, run) && q !in want && Moved(w, want, run, w')
    requires forall i :: InGroup(w', q, i) <==> InGroup(w, q, i)
    requires forall i :: InGroup(w', q, i) ==> i in w.secrets && w'.secrets[i] == w.secrets[i]
    ensures Orphan(w', want, q) <==> Orphan(w, want, q)
  {
    UsedOutside(w, want, run, w', q);
    if Parented(w, q) {
      assert IsParent(w', q, ParentOf(w, q)) by {
        assert InGroup(w, q, ParentOf(w, q));
      }
    }
    if Parented(w', q) {
      assert InGroup(w', q, ParentOf(w', q));
      assert IsParent(w, q, ParentOf(w', q));
    }
  }

  // The stages add up to SyncPost.
  lemma AssembleRun(
    w: World, want: map<string, Want>, run: map<string, Action>, restored: map<string, SecretId>,
    w3: World, w5: World, w6: World, cleanup: bool, w7: World)
    requires WellFormed(w) && InPast(w3) && Staged(w, want, run, w3) && run.Keys == want.Keys
    requires w5.secrets == w3.secrets - DroppedSet(w, run) && w5.now == w3.now && w5.serial == w3.serial
    requires Restored(w5, want, run, restored, w6) && Moved(w, want, run, w6)
    requires forall p :: p in run && run[p].Rotated? ==> p in restored
    requires w7 == if cleanup then DropSecrets(w6, OrphanSet(w6, want)) else w6
    ensures SyncPost(w, want, run, restored, cleanup, w7)
  {
    StagedFresh(w, want, run, w3);
    forall p | p in want ensures PathOutcome(w, want, p, run[p], restored, w7) {
      AssemblePath(w, want, run, restored, w3, w5, w6, p);
      OutcomeStays(w, want, p, run[p], restored, w6, w7);
    }
    forall q, i | q !in want
      ensures InGroup(w7, q, i) <==> InGroup(w, q, i) && !(cleanup && Orphan(w, want, q))
      ensures InGroup(w7, q, i) ==> i in w.secrets && w7.secrets[i] == w.secrets[i]
    {
      AssembleOther(w, want, run, restored, w3, w5, w6, cleanup, w7, q, i);
    }
    forall i | i in w7.secrets && w7.secrets[i].logicalPath !in want
      ensures i in w.secrets && w7.secrets[i] == w.secrets[i]
    {
      assert InGroup(w7, w7.secrets[i].logicalPath, i);
    }
  }

  lemma AssembleOther(
    w: World, want: map<string, Want>, run: map<string, Action>, restored: map<string, SecretId>,
    w3: World, w5: World, w6: World, cleanup: bool, w7: World, q: string, i: SecretId)
    requires RefsResolve(w) && RunFresh(w, run) && Staged(w, want, run, w3) && q !in want
    requires w5.secrets == w3.secrets - DroppedSet(w, run)
    requires Restored(w5, want, run, restored, w6) && Moved(w, want, run, w6)
    requires w7 == if cleanup then DropSecrets(w6, OrphanSet(w6, want)) else w6
    ensures InGroup(w7, q, i) <==> InGroup(w, q, i) && !(cleanup && Orphan(w, want, q))
    ensures InGroup(w7, q, i) ==> i in w.secrets && w7.secrets[i] == w.secrets[i]
  {
    forall j
      ensures InGroup(w6, q, j) <==> InGroup(w, q, j)
      ensures InGroup(w6, q, j) ==> j in w.secrets && w6.secrets[j] == w.secrets[j]
    {
      OtherGroup(w, want, run, restored, w3, w5, w6, q, j);
    }
    OrphanOutside(w, want, run, w6, q);
  }

  // The cleanup does not touch wanted groups.
  lemma OutcomeStays(
    w: World, want: map<string, Want>, p: string, a: Action, restored: map<string, SecretId>, w6: World, w7: World)
    requires p in want && PathOutcome(w, want, p, a, restored, w6)
    requires w7 == w6 || w7 == DropSecrets(w6, OrphanSet(w6, want))
    ensures PathOutcome(w, want, p, a, restored, w7)
  {
    forall i
      ensures InGroup(w7, p, i) <==> InGroup(w6, p, i)
      ensures InGroup(w6, p, i) ==> w7.secrets[i] == w6.secrets[i]
    {
    }
    match a
    case Created(parent) => assert InGroup(w6, p, parent);
    case Kept =>
    case Rotated(version) => assert InGroup(w6, p, version) && InGroup(w6, p, restored[p]);
  }
}
