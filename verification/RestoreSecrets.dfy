// Step 6: the parents of the rotated groups are created again (internal/sync/step6_restore_parent_secrets.go).
module RestoreSecrets {
  import opened Wrappers
  import opened Docker
  import opened Rotation
  import opened Stages
  import opened Payload
  import opened Planning

  // The first `n` restores are done.
  ghost predicate RestoredUpTo(restores: seq<UpdatedSecret>, n: int, restored: map<string, SecretId>)
    requires 0 <= n <= |restores|
  {
    (forall k :: 0 <= k < |restores| ==> (restores[k].path in restored <==> k < n)) &&
    (forall p :: p in restored ==> HasRestore(restores, p)) && |restored| == n
  }

  function Parent(r: UpdatedSecret): Secret {
    Secret(r.path, r.path, r.externalPath, r.externalId, r.description, true, r.value, 0)
  }

  lemma RestoreAt(
    want: map<string, Want>, run: map<string, Action>, restores: seq<UpdatedSecret>, n: nat,
    restored: map<string, SecretId>)
    requires RestoresFit(want, run, restores) && n < |restores| && RestoredUpTo(restores, n, restored)
    ensures var p := restores[n].path;
            p in want && p in run && run[p].Rotated? && p !in restored &&
            Parent(restores[n]) == ParentSecret(p, want[p]) && Parent(restores[n]).name == p
  {
  }

  lemma RestoredMore(restores: seq<UpdatedSecret>, n: nat, restored: map<string, SecretId>, i: SecretId)
    requires n < |restores| && RestoredUpTo(restores, n, restored)
    requires forall j, k :: 0 <= j < k < |restores| ==> restores[j].path != restores[k].path
    ensures RestoredUpTo(restores, n + 1, restored[restores[n].path := i])
  {
  }

  lemma RestoresDistinct(want: map<string, Want>, run: map<string, Action>, restores: seq<UpdatedSecret>)
    requires RestoresFit(want, run, restores)
    ensures forall j, k :: 0 <= j < k < |restores| ==> restores[j].path != restores[k].path
  {
  }

  lemma RestoreRoom(
    w5: World, want: map<string, Want>, run: map<string, Action>, restored: map<string, SecretId>, w': World,
    secret: Secret)
    requires WellFormed(w') && Restored(w5, want, run, restored, w')
    ensures InPast(w') && w5.now <= w'.now && w5.serial <= w'.serial
    ensures |AddSecret(w', secret).secrets| == |w'.secrets| + 1
  {
  }

  lemma RestoreStep(
    w: World, want: map<string, Want>, run: map<string, Action>, w3: World, w5: World, w': World,
    restores: seq<UpdatedSecret>, n: nat, restored: map<string, SecretId>)
    requires Staged(w, want, run, w3) && WellFormed(w3) && w5.secrets == w3.secrets - DroppedSet(w, run)
    requires WellFormed(w') && RestoresFit(want, run, restores) && n < |restores|
    requires Restored(w5, want, run, restored, w') && RestoredUpTo(restores, n, restored)
    ensures !NameTaken(w', Parent(restores[n]).name) && WellFormed(AddSecret(w', Parent(restores[n])))
    ensures |AddSecret(w', Parent(restores[n])).secrets| == |w'.secrets| + 1
    ensures Restored(w5, want, run, restored[restores[n].path := NextId(w')], AddSecret(w', Parent(restores[n])))
    ensures RestoredUpTo(restores, n + 1, restored[restores[n].path := NextId(w')])
  {
    hide *;
    var p := restores[n].path;
    RestoreAt(want, run, restores, n, restored);
    RestoreRoom(w5, want, run, restored, w', Parent(restores[n]));
    RestoreNameFree(w, want, run, restored, w3, w5, w', p);
    AddKeepsWellFormed(w', Parent(restores[n]));
    RestoreOne(w5, want, run, restored, w', p);
    RestoresDistinct(want, run, restores);
    RestoredMore(restores, n, restored, NextId(w'));
  }

  lemma RestoreStart(w5: World, want: map<string, Want>, run: map<string, Action>, restores: seq<UpdatedSecret>)
    ensures Restored(w5, want, run, map[], w5)
    ensures RestoredUpTo(restores, 0, map[])
  {
  }

  lemma RestoreEnd(
    want: map<string, Want>, run: map<string, Action>, restores: seq<UpdatedSecret>, restored: map<string, SecretId>)
    requires RestoresFit(want, run, restores) && RestoredUpTo(restores, |restores|, restored)
    ensures restored.Keys == RotatedPaths(run) && |restores| == |RotatedPaths(run)|
  {
  }

  lemma CalmCreate(before: seq<Call>, after: seq<Call>, call: Call)
    requires Calm(before, after) && call.CreateCall?
    ensures Calm(before, after + [call])
    ensures call.outcome == Fault ==> CreationFailed(before, after + [call])
  {
  }

  method RestoreSecrets(
    engine: Swarm, restores: seq<UpdatedSecret>, ghost w: World, ghost want: map<string, Want>,
    ghost run: map<string, Action>, ghost w3: World)
    returns (ok: bool, ghost restored: map<string, SecretId>)
    requires Staged(w, want, run, w3) && engine.world.secrets == w3.secrets - DroppedSet(w, run)
    requires WellFormed(w3) && WellFormed(engine.world)
    requires RestoresFit(want, run, restores)
    modifies engine`world, engine`journal, engine`faults
    ensures Restored(old(engine.world), want, run, restored, engine.world) && WellFormed(engine.world)
    ensures |engine.world.secrets| == |old(engine.world).secrets| + |restored|
    ensures ok ==> restored.Keys == RotatedPaths(run)
    ensures ok ==> engine.faults == old(engine.faults)
    ensures !ok ==> engine.faults > old(engine.faults) && CreationFailed(old(engine.journal), engine.journal)
    ensures Calm(old(engine.journal), engine.journal)
    ensures |restores| == 0 ==> engine.journal == old(engine.journal)
  {
    hide *;
    ghost var w5, journal := engine.world, engine.journal;
    restored := map[];
    RestoreStart(w5, want, run, restores);
    CalmSame(journal);
    for n := 0 to |restores|
      invariant Restored(w5, want, run, restored, engine.world) && WellFormed(engine.world)
      invariant RestoredUpTo(restores, n, restored)
      invariant |engine.world.secrets| == |w5.secrets| + |restored|
      invariant engine.faults == old(engine.faults) && Calm(journal, engine.journal)
      invariant n == 0 ==> engine.journal == journal
    {
      var r := restores[n];
      RestoreStep(w, want, run, w3, w5, engine.world, restores, n, restored);
      RestoredSize(restores, n, restored, r.path, NextId(engine.world));
      ghost var w', before := engine.world, engine.journal;
      var id := engine.SecretCreate(Parent(r));
      CalmCreate(journal, before, engine.journal[|before|]);
      if id.None? {
        return false, restored;
      }
      restored := restored[r.path := id.value];
    }
    RestoreEnd(want, run, restores, restored);
    return true, restored;
  }

  lemma RestoredSize(
    restores: seq<UpdatedSecret>, n: nat, restored: map<string, SecretId>, p: string, i: SecretId)
    requires n < |restores| && RestoredUpTo(restores, n, restored) && p == restores[n].path
    ensures |restored[p := i]| == |restored| + 1
  {
  }
}
