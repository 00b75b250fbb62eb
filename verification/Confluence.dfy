// The order in which a run meets the external secrets, and Docker its lists, does not matter: two runs from one
// state end in states that differ only in the ids and times of what the runs created.
module Confluence {
  import opened Docker
  import opened Rotation
  import opened Stages
  import opened Payload
  import opened Planning
  import opened RemoveVersions
  import opened Synchronizer
  import opened Stability

  // The counterpart in the second run of a secret after the first one.
  ghost function Renamed(w: World, run1: Run, w1: World, run2: Run, i: SecretId): SecretId {
    if i in w.secrets || i !in w1.secrets then i
    else
      var p := w1.secrets[i].logicalPath;
      if p !in run1.actions || p !in run2.actions then i
      else if run1.actions[p] == Created(i) && run2.actions[p].Created? then run2.actions[p].parent
      else if run1.actions[p] == Rotated(i) && run2.actions[p].Rotated? then run2.actions[p].version
      else if p in run2.restored then run2.restored[p]
      else i
  }

  lemma SameKind(
    w: World, want: map<string, Want>, cleanup: bool, run1: Run, w1: World, run2: Run, w2: World, p: string)
    requires SyncPost(w, want, run1.actions, run1.restored, cleanup, w1)
    requires SyncPost(w, want, run2.actions, run2.restored, cleanup, w2)
    ensures p in run1.actions <==> p in run2.actions
    ensures p in run1.actions ==>
              (run1.actions[p].Created? <==> run2.actions[p].Created?) &&
              (run1.actions[p].Kept? <==> run2.actions[p].Kept?)
  {
  }

  // Same secret, except that a new one may carry another time.
  ghost predicate Twins(w: World, w1: World, i: SecretId, w2: World, j: SecretId) {
    i in w1.secrets && j in w2.secrets && (i in w.secrets <==> j in w.secrets) &&
    (if i in w.secrets then i == j && w1.secrets[i] == w2.secrets[j]
     else w1.secrets[i].(updatedAt := 0) == w2.secrets[j].(updatedAt := 0))
  }

  lemma TwinWanted(
    w: World, want: map<string, Want>, cleanup: bool, run1: Run, w1: World, run2: Run, w2: World, i: SecretId)
    requires SyncPost(w, want, run1.actions, run1.restored, cleanup, w1)
    requires SyncPost(w, want, run2.actions, run2.restored, cleanup, w2)
    requires i in w1.secrets && w1.secrets[i].logicalPath in want
    ensures Twins(w, w1, i, w2, Renamed(w, run1, w1, run2, i))
    ensures Renamed(w, run2, w2, run1, Renamed(w, run1, w1, run2, i)) == i
  {
    var p := w1.secrets[i].logicalPath;
    SameKind(w, want, cleanup, run1, w1, run2, w2, p);
    assert PathOutcome(w, want, p, run1.actions[p], run1.restored, w1);
    assert PathOutcome(w, want, p, run2.actions[p], run2.restored, w2);
    assert InGroup(w1, p, i);
    hide SyncPost, PathOutcome, Twins, Renamed, InGroup;
    match run1.actions[p]
    case Created(_) => TwinCreated(w, want, p, run1, w1, run2, w2, i);
    case Kept => TwinKept(w, want, p, run1, w1, run2, w2, i);
    case Rotated(_) => TwinRotated(w, want, p, run1, w1, run2, w2, i);
  }

  lemma TwinCreated(
    w: World, want: map<string, Want>, p: string, run1: Run, w1: World, run2: Run, w2: World, i: SecretId)
    requires p in want && p in run1.actions && p in run2.actions
    requires run1.actions[p].Created? && run2.actions[p].Created?
    requires PathOutcome(w, want, p, run1.actions[p], run1.restored, w1)
    requires PathOutcome(w, want, p, run2.actions[p], run2.restored, w2)
    requires InGroup(w1, p, i)
    ensures Twins(w, w1, i, w2, Renamed(w, run1, w1, run2, i))
    ensures Renamed(w, run2, w2, run1, Renamed(w, run1, w1, run2, i)) == i
  {
  }

  lemma TwinKept(
    w: World, want: map<string, Want>, p: string, run1: Run, w1: World, run2: Run, w2: World, i: SecretId)
    requires p in want && p in run1.actions && p in run2.actions
    requires run1.actions[p].Kept? && run2.actions[p].Kept?
    requires PathOutcome(w, want, p, run1.actions[p], run1.restored, w1)
    requires PathOutcome(w, want, p, run2.actions[p], run2.restored, w2)
    requires InGroup(w1, p, i)
    ensures Twins(w, w1, i, w2, Renamed(w, run1, w1, run2, i))
    ensures Renamed(w, run2, w2, run1, Renamed(w, run1, w1, run2, i)) == i
  {
  }

  lemma TwinRotated(
    w: World, want: map<string, Want>, p: string, run1: Run, w1: World, run2: Run, w2: World, i: SecretId)
    requires p in want && p in run1.actions && p in run2.actions
    requires run1.actions[p].Rotated? && run2.actions[p].Rotated?
    requires PathOutcome(w, want, p, run1.actions[p], run1.restored, w1)
    requires PathOutcome(w, want, p, run2.actions[p], run2.restored, w2)
    requires InGroup(w1, p, i)
    ensures Twins(w, w1, i, w2, Renamed(w, run1, w1, run2, i))
    ensures Renamed(w, run2, w2, run1, Renamed(w, run1, w1, run2, i)) == i
  {
  }

  lemma TwinOther(
    w: World, want: map<string, Want>, cleanup: bool, run1: Run, w1: World, run2: Run, w2: World, i: SecretId)
    requires SyncPost(w, want, run1.actions, run1.restored, cleanup, w1)
    requires SyncPost(w, want, run2.actions, run2.restored, cleanup, w2)
    requires i in w1.secrets && w1.secrets[i].logicalPath !in want
    ensures Twins(w, w1, i, w2, Renamed(w, run1, w1, run2, i))
    ensures Renamed(w, run2, w2, run1, Renamed(w, run1, w1, run2, i)) == i
  {
    var q := w1.secrets[i].logicalPath;
    assert InGroup(w1, q, i);
    assert InGroup(w2, q, i);
  }

  // The renaming matches the secrets of both states one to one, and equal secrets with equal secrets.
  lemma SecretsConfluent(
    w: World, want: map<string, Want>, cleanup: bool, run1: Run, w1: World, run2: Run, w2: World, i: SecretId)
    requires SyncPost(w, want, run1.actions, run1.restored, cleanup, w1)
    requires SyncPost(w, want, run2.actions, run2.restored, cleanup, w2)
    requires i in w1.secrets
    ensures Twins(w, w1, i, w2, Renamed(w, run1, w1, run2, i))
    ensures Renamed(w, run2, w2, run1, Renamed(w, run1, w1, run2, i)) == i
  {
    if w1.secrets[i].logicalPath in want {
      TwinWanted(w, want, cleanup, run1, w1, run2, w2, i);
    } else {
      TwinOther(w, want, cleanup, run1, w1, run2, w2, i);
    }
  }

  // Every reference after the second run is the renamed one after the first.
  lemma RefsConfluent(
    w: World, want: map<string, Want>, cleanup: bool, run1: Run, w1: World, run2: Run, w2: World, s: ServiceId, k: int)
    requires Completed(w, want, run1.actions, run1.restored, cleanup, w1)
    requires Completed(w, want, run2.actions, run2.restored, cleanup, w2)
    requires s in w1.services && 0 <= k < |w1.services[s].refs|
    ensures s in w2.services && |w2.services[s].refs| == |w1.services[s].refs|
    ensures w2.services[s].refs[k] ==
            w1.services[s].refs[k].(secretId := Renamed(w, run1, w1, run2, w1.services[s].refs[k].secretId))
  {
    var r := w.services[s].refs[k];
    assert Resolves(w, r);
    assert w1.services[s].refs[k] == Move(w, want, run1.actions, r);
    assert w2.services[s].refs[k] == Move(w, want, run2.actions, r);
    MovesConfluent(w, want, cleanup, run1, w1, run2, w2, r);
  }

  lemma MovesConfluent(
    w: World, want: map<string, Want>, cleanup: bool, run1: Run, w1: World, run2: Run, w2: World, r: Ref)
    requires SyncPost(w, want, run1.actions, run1.restored, cleanup, w1)
    requires SyncPost(w, want, run2.actions, run2.restored, cleanup, w2)
    requires Resolves(w, r)
    ensures var m := Move(w, want, run1.actions, r);
            Move(w, want, run2.actions, r) == m.(secretId := Renamed(w, run1, w1, run2, m.secretId))
  {
    hide SyncPost;
    var p := w.secrets[r.secretId].logicalPath;
    SameKind(w, want, cleanup, run1, w1, run2, w2, p);
    WantedActions(w, want, run1.actions, run1.restored, cleanup, w1);
    if p in want {
      FitsAt(w, want, run1.actions, run1.restored, cleanup, w1, p);
      if run1.actions[p].Rotated? {
        VersionRenamed(w, want, cleanup, run1, w1, run2, w2, p);
      }
    }
  }

  lemma WantedActions(
    w: World, want: map<string, Want>, run: map<string, Action>, restored: map<string, SecretId>, cleanup: bool,
    w': World)
    requires SyncPost(w, want, run, restored, cleanup, w')
    ensures run.Keys == want.Keys
  {
  }

  lemma VersionRenamed(
    w: World, want: map<string, Want>, cleanup: bool, run1: Run, w1: World, run2: Run, w2: World, p: string)
    requires SyncPost(w, want, run1.actions, run1.restored, cleanup, w1)
    requires p in want && p in run1.actions && p in run2.actions
    requires run1.actions[p].Rotated? && run2.actions[p].Rotated?
    ensures Renamed(w, run1, w1, run2, run1.actions[p].version) == run2.actions[p].version
  {
  }

  lemma MovesTogether(
    w: World, want: map<string, Want>, cleanup: bool, run1: Run, w1: World, run2: Run, w2: World, r: Ref)
    requires SyncPost(w, want, run1.actions, run1.restored, cleanup, w1)
    requires SyncPost(w, want, run2.actions, run2.restored, cleanup, w2)
    requires Resolves(w, r)
    ensures Move(w, want, run1.actions, r) == r <==> Move(w, want, run2.actions, r) == r
  {
    var p := w.secrets[r.secretId].logicalPath;
    SameKind(w, want, cleanup, run1, w1, run2, w2, p);
    OutcomesFresh(w, want, run1.actions, run1.restored, cleanup, w1);
    OutcomesFresh(w, want, run2.actions, run2.restored, cleanup, w2);
    hide SyncPost;
  }

  // The same services are updated, so their versions agree.
  lemma ServicesConfluent(
    w: World, want: map<string, Want>, cleanup: bool, run1: Run, w1: World, run2: Run, w2: World, s: ServiceId)
    requires Completed(w, want, run1.actions, run1.restored, cleanup, w1)
    requires Completed(w, want, run2.actions, run2.restored, cleanup, w2)
    ensures s in w1.services <==> s in w2.services
    ensures s in w1.services ==> w1.services[s].version == w2.services[s].version
  {
    ServiceMoved(w, want, run1, cleanup, w1, s);
    ServiceMoved(w, want, run2, cleanup, w2, s);
    if s in w1.services {
      var refs := w.services[s].refs;
      forall k | 0 <= k < |refs|
        ensures MoveAll(w, want, run1.actions, refs)[k] == refs[k] <==>
                MoveAll(w, want, run2.actions, refs)[k] == refs[k]
      {
        assert Resolves(w, refs[k]);
        MovesTogether(w, want, cleanup, run1, w1, run2, w2, refs[k]);
      }
      hide MoveAll, Completed;
      assert MoveAll(w, want, run1.actions, refs) == refs <==> MoveAll(w, want, run2.actions, refs) == refs;
    }
  }

  lemma ServiceMoved(w: World, want: map<string, Want>, run: Run, cleanup: bool, w': World, s: ServiceId)
    requires Completed(w, want, run.actions, run.restored, cleanup, w')
    ensures s in w'.services <==> s in w.services
    ensures s in w.services ==> w'.services[s] == MovedService(w, want, run.actions, w.services[s])
  {
  }

  // The counters are the same, too.
  lemma ResultConfluent(
    w: World, want: map<string, Want>, cleanup: bool, run1: Run, w1: World, run2: Run, w2: World,
    result1: SyncResult, result2: SyncResult)
    requires SyncPost(w, want, run1.actions, run1.restored, cleanup, w1)
    requires SyncPost(w, want, run2.actions, run2.restored, cleanup, w2)
    requires ResultIs(result1, w, want, run1.actions, cleanup) && ResultIs(result2, w, want, run2.actions, cleanup)
    ensures result1 == result2
  {
    SameSets(w, want, cleanup, run1, w1, run2, w2);
    hide CreatedPaths, RotatedPaths, KeptPaths, DroppedSet, SyncPost, ParentsIn, ChildrenIn, OrphanSet;
  }

  lemma SameSets(w: World, want: map<string, Want>, cleanup: bool, run1: Run, w1: World, run2: Run, w2: World)
    requires SyncPost(w, want, run1.actions, run1.restored, cleanup, w1)
    requires SyncPost(w, want, run2.actions, run2.restored, cleanup, w2)
    ensures CreatedPaths(run1.actions) == CreatedPaths(run2.actions)
    ensures RotatedPaths(run1.actions) == RotatedPaths(run2.actions)
    ensures KeptPaths(run1.actions) == KeptPaths(run2.actions)
    ensures DroppedSet(w, run1.actions) == DroppedSet(w, run2.actions)
  {
    hide SyncPost;
    forall p ensures p in run1.actions <==> p in run2.actions
             ensures p in run1.actions ==>
                       (run1.actions[p].Created? <==> run2.actions[p].Created?) &&
                       (run1.actions[p].Kept? <==> run2.actions[p].Kept?)
    {
      SameKind(w, want, cleanup, run1, w1, run2, w2, p);
    }
  }
}
