// What follows for whole histories of synchronisations: recovery, currency, confluence, orphan cleanup.
module Stability {
  import opened Docker
  import opened Rotation
  import opened Rollout
  import opened Stages
  import opened Synchronizer

  // A completed run between well-formed states.
  ghost predicate Completed(
    w: World, want: map<string, Want>, run: map<string, Action>, restored: map<string, SecretId>, cleanup: bool,
    w': World)
  {
    WellFormed(w) && WellFormed(w') && "" !in want && SyncPost(w, want, run, restored, cleanup, w')
  }

  // ---------------------------------------------------------------- phases of one wanted path

  ghost predicate ParentIs(w: World, want: map<string, Want>, p: string)
    requires p in want
  {
    Parented(w, p) && w.secrets[ParentOf(w, p)].externalId == want[p].versionId
  }

  // The parent carries the wanted version, all references are on it, and a managed group holds nothing else.
  ghost predicate Settled(w: World, want: map<string, Want>, p: string)
    requires p in want
  {
    ParentIs(w, want, p) && QuietAt(w, want, p)
  }

  // The wanted version is the latest of a group without any managed label, but the parent is an older one.
  ghost predicate Stuck(w: World, want: map<string, Want>, p: string)
    requires p in want
  {
    Parented(w, p) && LatestIs(w, p, want[p].versionId) && !ParentIs(w, want, p) && !Managed(w, p)
  }

  // The number of runs that a path needs at most.
  ghost function Rank(w: World, want: map<string, Want>, p: string): (rank: nat)
    requires p in want
    ensures rank == 0 <==> Settled(w, want, p)
  {
    if Settled(w, want, p) then 0
    else if !Parented(w, p) || !LatestIs(w, p, want[p].versionId) then 2
    else if ParentIs(w, want, p) then 1
    else 3
  }

  lemma NewestIsLatest(w: World, p: string, i: SecretId)
    requires InGroup(w, p, i) && forall j :: InGroup(w, p, j) ==> w.secrets[j].updatedAt <= w.secrets[i].updatedAt
    ensures IsLatest(w, p, i) && LatestIs(w, p, w.secrets[i].externalId)
  {
  }

  // A newest new parent puts the path on the wanted version.
  lemma NewParent(w: World, w': World, want: map<string, Want>, p: string, n: SecretId)
    requires NamesUnique(w') && p in want && IsNew(w, w', n, ParentSecret(p, want[p]))
    requires forall j :: InGroup(w', p, j) ==> w'.secrets[j].updatedAt <= w'.secrets[n].updatedAt
    ensures Parented(w', p) && ParentOf(w', p) == n && ParentIs(w', want, p)
    ensures LatestIs(w', p, want[p].versionId) && Managed(w', p)
  {
    assert w'.secrets[n].(updatedAt := 0) == ParentSecret(p, want[p]);
    assert IsParent(w', p, n) && InGroup(w', p, n);
    ParentUnique(w', p, n);
    NewestIsLatest(w', p, n);
  }

  // A missing path gets its parent.
  lemma AfterCreated(
    w: World, want: map<string, Want>, run: map<string, Action>, restored: map<string, SecretId>, cleanup: bool,
    w': World, p: string)
    requires Completed(w, want, run, restored, cleanup, w') && p in want && run[p].Created?
    ensures Parented(w', p) && ParentOf(w', p) == run[p].parent && ParentIs(w', want, p)
    ensures LatestIs(w', p, want[p].versionId) && Managed(w', p)
  {
    var n := run[p].parent;
    assert PathOutcome(w, want, p, run[p], restored, w');
    forall j | InGroup(w', p, j) ensures w'.secrets[j].updatedAt <= w'.secrets[n].updatedAt {
      assert j != n ==> InGroup(w, p, j);
    }
    NewParent(w, w', want, p, n);
  }

  lemma RotatedOutcome(
    w: World, want: map<string, Want>, run: map<string, Action>, restored: map<string, SecretId>, cleanup: bool,
    w': World, p: string)
    requires SyncPost(w, want, run, restored, cleanup, w') && p in want && run[p].Rotated?
    ensures p in restored && IsNew(w, w', restored[p], ParentSecret(p, want[p]))
    ensures forall j :: InGroup(w', p, j) <==> j == run[p].version || j == restored[p]
    ensures Rotates(w, want, p, w', run[p].version) && run[p].version != restored[p]
    ensures w'.secrets[run[p].version].updatedAt < w'.secrets[restored[p]].updatedAt
  {
  }

  // A path with another version gets a parent of the wanted version.
  lemma AfterRotated(
    w: World, want: map<string, Want>, run: map<string, Action>, restored: map<string, SecretId>, cleanup: bool,
    w': World, p: string)
    requires Completed(w, want, run, restored, cleanup, w') && p in want && run[p].Rotated?
    ensures p in restored && Parented(w', p) && ParentOf(w', p) == restored[p] && ParentIs(w', want, p)
    ensures LatestIs(w', p, want[p].versionId) && Managed(w', p)
  {
    RotatedOutcome(w, want, run, restored, cleanup, w', p);
    hide SyncPost;
    NewParent(w, w', want, p, restored[p]);
  }

  // A path on its version keeps its parent, and the references are on it.
  lemma AfterKept(
    w: World, want: map<string, Want>, run: map<string, Action>, restored: map<string, SecretId>, cleanup: bool,
    w': World, p: string)
    requires Completed(w, want, run, restored, cleanup, w') && p in want && run[p].Kept?
    ensures Parented(w, p) && Parented(w', p) && ParentOf(w', p) == ParentOf(w, p)
    ensures w'.secrets[ParentOf(w, p)] == w.secrets[ParentOf(w, p)]
    ensures Managed(w, p) ==> forall i :: InGroup(w', p, i) ==> i == ParentOf(w, p)
    ensures !Managed(w, p) ==>
              !Managed(w', p) && forall i :: (InGroup(w', p, i) <==> InGroup(w, p, i)) &&
                                             (InGroup(w, p, i) ==>
                                                i in w'.secrets && w'.secrets[i] == w.secrets[i])
  {
    assert PathOutcome(w, want, p, run[p], restored, w');
    var n := ParentOf(w, p);
    assert InGroup(w, p, n) && InGroup(w', p, n);
    assert IsParent(w', p, n);
    ParentUnique(w', p, n);
  }

  // A moved reference stays in its group.
  lemma MovedInside(
    w: World, want: map<string, Want>, run: map<string, Action>, restored: map<string, SecretId>, cleanup: bool,
    w': World, r: Ref, q: string)
    requires Completed(w, want, run, restored, cleanup, w') && InGroup(w, q, r.secretId) && q in want
    ensures var m := Move(w, want, run, r);
            (m.secretId in w'.secrets ==> w'.secrets[m.secretId].logicalPath == q) &&
            match run[q]
            case Created(_) => m == r
            case Kept => Parented(w, q) && m.secretId == ParentOf(w, q)
            case Rotated(version) => m.secretId == version
  {
    assert PathOutcome(w, want, q, run[q], restored, w');
    match run[q]
    case Kept => AfterKept(w, want, run, restored, cleanup, w', q);
    case Rotated(_) => RotatedOutcome(w, want, run, restored, cleanup, w', q);
    case Created(_) =>
  }

  // What is in a wanted group after the run was there before or is new.
  lemma GroupOrigin(
    w: World, want: map<string, Want>, run: map<string, Action>, restored: map<string, SecretId>, cleanup: bool,
    w': World, p: string, i: SecretId)
    requires SyncPost(w, want, run, restored, cleanup, w') && p in want && InGroup(w', p, i) && i in w.secrets
    ensures InGroup(w, p, i)
  {
  }

  lemma MovedAt(
    w: World, want: map<string, Want>, run: map<string, Action>, restored: map<string, SecretId>, cleanup: bool,
    w': World, s: ServiceId, k: int)
    requires Completed(w, want, run, restored, cleanup, w')
    requires s in w'.services && 0 <= k < |w'.services[s].refs|
    ensures s in w.services && k < |w.services[s].refs| && Resolves(w, w.services[s].refs[k])
    ensures w'.services[s].refs[k] == Move(w, want, run, w.services[s].refs[k])
  {
  }

  lemma MovedOutside(w: World, want: map<string, Want>, run: map<string, Action>, r: Ref)
    requires r.secretId in w.secrets && w.secrets[r.secretId].logicalPath !in want
    ensures Move(w, want, run, r) == r
  {
  }

  lemma CompletedPost(
    w: World, want: map<string, Want>, run: map<string, Action>, restored: map<string, SecretId>, cleanup: bool,
    w': World)
    requires Completed(w, want, run, restored, cleanup, w')
    ensures SyncPost(w, want, run, restored, cleanup, w') && WellFormed(w) && WellFormed(w')
  {
  }

  // Where the references of a wanted group point after the run.
  lemma AfterMove(
    w: World, want: map<string, Want>, run: map<string, Action>, restored: map<string, SecretId>, cleanup: bool,
    w': World, p: string, s: ServiceId, k: int)
    requires Completed(w, want, run, restored, cleanup, w') && p in want
    requires s in w'.services && 0 <= k < |w'.services[s].refs|
    requires InGroup(w', p, w'.services[s].refs[k].secretId)
    ensures s in w.services && k < |w.services[s].refs| && InGroup(w, p, w.services[s].refs[k].secretId)
    ensures match run[p]
            case Created(_) => w'.services[s].refs[k] == w.services[s].refs[k]
            case Kept => Parented(w, p) && w'.services[s].refs[k].secretId == ParentOf(w, p)
            case Rotated(version) => w'.services[s].refs[k].secretId == version
  {
    MovedAt(w, want, run, restored, cleanup, w', s, k);
    var r := w.services[s].refs[k];
    var q := w.secrets[r.secretId].logicalPath;
    hide Completed, Move;
    if q in want {
      MovedInside(w, want, run, restored, cleanup, w', r, q);
    } else {
      MovedOutside(w, want, run, r);
      CompletedPost(w, want, run, restored, cleanup, w');
      hide SyncPost;
      GroupOrigin(w, want, run, restored, cleanup, w', p, r.secretId);
    }
  }

  // ---------------------------------------------------------------- bounded recovery

  // A group that holds its parent only.
  lemma LoneGroup(w: World, want: map<string, Want>, p: string)
    requires WellFormed(w) && p in want && Parented(w, p)
    requires forall i :: InGroup(w, p, i) ==> i == ParentOf(w, p)
    ensures LatestIs(w, p, want[p].versionId) <==> ParentIs(w, want, p)
  {
  }

  lemma SameLatest(w: World, w': World, p: string, v: string)
    requires forall i :: InGroup(w', p, i) <==> InGroup(w, p, i)
    requires forall i :: InGroup(w, p, i) ==> i in w'.secrets && w'.secrets[i] == w.secrets[i]
    ensures LatestIs(w', p, v) <==> LatestIs(w, p, v)
  {
  }

  lemma KeptRefs(
    w: World, want: map<string, Want>, run: map<string, Action>, restored: map<string, SecretId>, cleanup: bool,
    w': World, p: string, s: ServiceId, k: int)
    requires Completed(w, want, run, restored, cleanup, w') && p in want && run[p].Kept?
    requires s in w'.services && 0 <= k < |w'.services[s].refs|
    requires InGroup(w', p, w'.services[s].refs[k].secretId)
    ensures IsParent(w', p, w'.services[s].refs[k].secretId)
  {
    AfterMove(w, want, run, restored, cleanup, w', p, s, k);
    AfterKept(w, want, run, restored, cleanup, w', p);
    assert IsParent(w', p, ParentOf(w', p));
  }

  // A run on a path whose version matches settles it, or leaves a lone stale parent, or leaves it stuck.
  lemma KeptPhase(
    w: World, want: map<string, Want>, run: map<string, Action>, restored: map<string, SecretId>, cleanup: bool,
    w': World, p: string)
    requires Completed(w, want, run, restored, cleanup, w') && p in want && run[p].Kept?
    ensures ParentIs(w', want, p) <==> ParentIs(w, want, p)
    ensures ParentIs(w, want, p) ==> Settled(w', want, p)
    ensures !ParentIs(w, want, p) && Managed(w, p) ==> !LatestIs(w', p, want[p].versionId)
    ensures !ParentIs(w, want, p) && !Managed(w, p) ==> Stuck(w', want, p)
  {
    AfterKept(w, want, run, restored, cleanup, w', p);
    assert PathOutcome(w, want, p, run[p], restored, w');
    forall s, k | s in w'.services && 0 <= k < |w'.services[s].refs| &&
                  InGroup(w', p, w'.services[s].refs[k].secretId)
      ensures IsParent(w', p, w'.services[s].refs[k].secretId)
    {
      KeptRefs(w, want, run, restored, cleanup, w', p, s, k);
    }
    hide SyncPost, PathOutcome;
    if Managed(w, p) {
      LoneGroup(w', want, p);
    } else {
      SameLatest(w, w', p, want[p].versionId);
    }
  }

  lemma FitsAt(
    w: World, want: map<string, Want>, run: map<string, Action>, restored: map<string, SecretId>, cleanup: bool,
    w': World, p: string)
    requires SyncPost(w, want, run, restored, cleanup, w') && p in want
    ensures p in run && ActionFits(w, want, p, run[p])
  {
  }

  // Every completed run brings a path one step nearer, unless it is stuck; and a stuck path stays stuck.
  lemma RankDrops(
    w: World, want: map<string, Want>, run: map<string, Action>, restored: map<string, SecretId>, cleanup: bool,
    w': World, p: string)
    requires Completed(w, want, run, restored, cleanup, w') && p in want
    ensures Stuck(w', want, p) <==> Stuck(w, want, p)
    ensures !Stuck(w, want, p) ==> Rank(w', want, p) <= if Rank(w, want, p) == 0 then 0 else Rank(w, want, p) - 1
  {
    FitsAt(w, want, run, restored, cleanup, w', p);
    match run[p]
    case Created(_) => AfterCreated(w, want, run, restored, cleanup, w', p);
    case Rotated(_) => AfterRotated(w, want, run, restored, cleanup, w', p);
    case Kept => KeptPhase(w, want, run, restored, cleanup, w', p);
  }

  datatype Run = Run(actions: map<string, Action>, restored: map<string, SecretId>)

  // The snapshots agree on everything but the names drawn for new versions.
  ghost predicate SameSnapshot(a: map<string, Want>, b: map<string, Want>) {
    a.Keys == b.Keys && forall p :: p in a ==> b[p] == a[p].(versionName := b[p].versionName)
  }

  ghost predicate Link(
    worlds: seq<World>, wants: seq<map<string, Want>>, runs: seq<Run>, k: nat, want: map<string, Want>, cleanup: bool)
    requires k < |runs| == |wants| < |worlds|
  {
    SameSnapshot(want, wants[k]) &&
    Completed(worlds[k], wants[k], runs[k].actions, runs[k].restored, cleanup, worlds[k + 1])
  }

  // A chain of completed runs for one external snapshot, each with its own names.
  ghost predicate Chain(
    worlds: seq<World>, wants: seq<map<string, Want>>, runs: seq<Run>, want: map<string, Want>, cleanup: bool)
  {
    |worlds| == |runs| + 1 && |wants| == |runs| &&
    forall k: nat :: k < |runs| ==> Link(worlds, wants, runs, k, want, cleanup)
  }

  lemma LinkAt(
    worlds: seq<World>, wants: seq<map<string, Want>>, runs: seq<Run>, want: map<string, Want>, cleanup: bool, k: nat)
    requires Chain(worlds, wants, runs, want, cleanup) && k < |runs|
    ensures |worlds| == |runs| + 1 && |wants| == |runs|
    ensures SameSnapshot(want, wants[k]) && wants[k].Keys == want.Keys
    ensures Completed(worlds[k], wants[k], runs[k].actions, runs[k].restored, cleanup, worlds[k + 1])
  {
    assert Link(worlds, wants, runs, k, want, cleanup);
  }

  // Where a path stands does not depend on the names.
  lemma SamePhase(a: map<string, Want>, b: map<string, Want>, w: World, p: string)
    requires SameSnapshot(a, b) && p in a
    ensures p in b && b[p].versionId == a[p].versionId && b[p].data == a[p].data
    ensures ParentIs(w, a, p) <==> ParentIs(w, b, p)
    ensures Stuck(w, a, p) <==> Stuck(w, b, p)
    ensures Settled(w, a, p) <==> Settled(w, b, p)
    ensures Rank(w, a, p) == Rank(w, b, p)
  {
  }

  lemma {:induction false} ChainRank(
    worlds: seq<World>, wants: seq<map<string, Want>>, runs: seq<Run>, want: map<string, Want>, cleanup: bool,
    p: string, n: nat)
    requires Chain(worlds, wants, runs, want, cleanup) && p in want && n <= |runs|
    ensures Stuck(worlds[n], want, p) <==> Stuck(worlds[0], want, p)
    ensures !Stuck(worlds[0], want, p) ==>
              Rank(worlds[n], want, p) <= if Rank(worlds[0], want, p) <= n then 0 else Rank(worlds[0], want, p) - n
  {
    hide *;
    if n > 0 {
      LinkAt(worlds, wants, runs, want, cleanup, n - 1);
      ChainRank(worlds, wants, runs, want, cleanup, p, n - 1);
      RankDrops(worlds[n - 1], wants[n - 1], runs[n - 1].actions, runs[n - 1].restored, cleanup, worlds[n], p);
      SamePhase(want, wants[n - 1], worlds[n - 1], p);
      SamePhase(want, wants[n - 1], worlds[n], p);
    }
  }

  // Bounded self-stabilisation, exactly: after three or more completed runs a wanted path is settled if and only
  // if it did not start stuck.
  lemma ThreeRunsSettle(
    worlds: seq<World>, wants: seq<map<string, Want>>, runs: seq<Run>, want: map<string, Want>, cleanup: bool,
    p: string)
    requires Chain(worlds, wants, runs, want, cleanup) && p in want && |runs| >= 3
    ensures Settled(worlds[|runs|], want, p) <==> !Stuck(worlds[0], want, p)
  {
    ChainRank(worlds, wants, runs, want, cleanup, p, |runs|);
  }

  // A rotation never settles its path at once: the version is still there beside the new parent.
  lemma RotatedNotSettled(
    w: World, want: map<string, Want>, run: map<string, Action>, restored: map<string, SecretId>, cleanup: bool,
    w': World, p: string)
    requires Completed(w, want, run, restored, cleanup, w') && p in want && run[p].Rotated?
    ensures !Settled(w', want, p)
  {
    AfterRotated(w, want, run, restored, cleanup, w', p);
    RotatedOutcome(w, want, run, restored, cleanup, w', p);
    assert InGroup(w', p, run[p].version) && IsParent(w', p, restored[p]);
  }

  // The bound is tight: a stale parent under a managed newer version needs all three runs.
  lemma TwoRunsNotEnough(
    worlds: seq<World>, wants: seq<map<string, Want>>, runs: seq<Run>, want: map<string, Want>, cleanup: bool,
    p: string)
    requires Chain(worlds, wants, runs, want, cleanup) && p in want && |runs| == 2
    requires Parented(worlds[0], p) && LatestIs(worlds[0], p, want[p].versionId)
    requires !ParentIs(worlds[0], want, p) && Managed(worlds[0], p)
    ensures !Settled(worlds[2], want, p)
  {
    hide *;
    LinkAt(worlds, wants, runs, want, cleanup, 0);
    LinkAt(worlds, wants, runs, want, cleanup, 1);
    SamePhase(want, wants[0], worlds[0], p);
    SamePhase(want, wants[1], worlds[2], p);
    StaleKept(worlds[0], wants[0], runs[0].actions, runs[0].restored, cleanup, worlds[1], p);
    OutdatedRotated(worlds[1], wants[1], runs[1].actions, runs[1].restored, cleanup, worlds[2], p);
  }

  lemma StaleKept(
    w: World, want: map<string, Want>, run: map<string, Action>, restored: map<string, SecretId>, cleanup: bool,
    w': World, p: string)
    requires Completed(w, want, run, restored, cleanup, w') && p in want
    requires Parented(w, p) && LatestIs(w, p, want[p].versionId) && !ParentIs(w, want, p) && Managed(w, p)
    ensures Parented(w', p) && !LatestIs(w', p, want[p].versionId)
  {
    FitsAt(w, want, run, restored, cleanup, w', p);
    AfterKept(w, want, run, restored, cleanup, w', p);
    KeptPhase(w, want, run, restored, cleanup, w', p);
  }

  lemma OutdatedRotated(
    w: World, want: map<string, Want>, run: map<string, Action>, restored: map<string, SecretId>, cleanup: bool,
    w': World, p: string)
    requires Completed(w, want, run, restored, cleanup, w') && p in want
    requires Parented(w, p) && !LatestIs(w, p, want[p].versionId)
    ensures !Settled(w', want, p)
  {
    FitsAt(w, want, run, restored, cleanup, w', p);
    RotatedNotSettled(w, want, run, restored, cleanup, w', p);
  }

  // Versions carry the managed label, as all that the program creates do.
  ghost predicate VersionsManaged(w: World) {
    forall i :: i in w.secrets && w.secrets[i].name != w.secrets[i].logicalPath ==> w.secrets[i].managed
  }

  lemma ManagedNotStuck(w: World, want: map<string, Want>, p: string)
    requires WellFormed(w) && VersionsManaged(w) && p in want
    ensures !Stuck(w, want, p)
  {
  }

  lemma GrownManaged(w: World, want: map<string, Want>, w': World)
    requires Grown(w, want, w') && VersionsManaged(w)
    ensures VersionsManaged(w')
  {
  }

  // What a synchronisation guarantees whatever fails in it.
  ghost predicate Attempted(w: World, want: map<string, Want>, w': World) {
    WellFormed(w') && Grown(w, want, w')
  }

  // ---------------------------------------------------------------- orphan cleanup

  // A group outside the wanted paths goes whole or stays whole, and it goes exactly when it is managed, has its
  // parent and is not referred to.
  lemma CleanupExact(
    w: World, want: map<string, Want>, run: map<string, Action>, restored: map<string, SecretId>, w': World, q: string)
    requires Completed(w, want, run, restored, true, w') && q != "" && Parented(w, q)
    ensures Parented(w', q) <==> !Managed(w, q) || Used(w, q) || q in want
    ensures q !in want ==> (forall i :: InGroup(w', q, i) <==> InGroup(w, q, i)) || (forall i :: !InGroup(w', q, i))
  {
    if q in want {
      FitsAt(w, want, run, restored, true, w', q);
      match run[q]
      case Rotated(_) => AfterRotated(w, want, run, restored, true, w', q);
      case Kept => AfterKept(w, want, run, restored, true, w', q);
      case Created(_) =>
    } else {
      var n := ParentOf(w, q);
      assert InGroup(w, q, n);
      if InGroup(w', q, n) {
        assert w'.secrets[n] == w.secrets[n];
        assert IsParent(w', q, n);
      }
      if Parented(w', q) {
        assert InGroup(w', q, ParentOf(w', q));
      }
    }
  }

  // After a cleanup no orphan is left.
  lemma NoOrphansLeft(
    w: World, want: map<string, Want>, run: map<string, Action>, restored: map<string, SecretId>, w': World, q: string)
    requires Completed(w, want, run, restored, true, w')
    ensures !Orphan(w', want, q)
  {
    if q !in want && q != "" && Parented(w', q) {
      assert InGroup(w', q, ParentOf(w', q));
      OutcomesFresh(w, want, run, restored, true, w');
      forall i ensures InGroup(w', q, i) <==> InGroup(w, q, i)
               ensures InGroup(w', q, i) ==> i in w.secrets && w'.secrets[i] == w.secrets[i]
      {
        assert InGroup(w, q, ParentOf(w', q)) && !Orphan(w, want, q);
      }
      OrphanOutside(w, want, run, w', q);
    }
  }

  lemma OutcomesFresh(
    w: World, want: map<string, Want>, run: map<string, Action>, restored: map<string, SecretId>, cleanup: bool,
    w': World)
    requires SyncPost(w, want, run, restored, cleanup, w')
    ensures RunFresh(w, run)
  {
  }

  lemma SameQuiet(a: map<string, Want>, b: map<string, Want>, w: World, cleanup: bool)
    requires SameSnapshot(a, b)
    ensures Quiet(w, a, cleanup) <==> Quiet(w, b, cleanup)
    ensures forall q :: Orphan(w, a, q) <==> Orphan(w, b, q)
  {
    forall p ensures p in a <==> p in b
             ensures p in a ==> (QuietAt(w, a, p) <==> QuietAt(w, b, p))
    {
      assert p in a.Keys <==> p in b.Keys;
    }
    forall q ensures Orphan(w, a, q) <==> Orphan(w, b, q) {
      assert q in a.Keys <==> q in b.Keys;
    }
    hide QuietAt, Orphan;
  }

  // After three completed runs the next one has nothing to write.
  lemma ThreeRunsQuiet(
    worlds: seq<World>, wants: seq<map<string, Want>>, runs: seq<Run>, want: map<string, Want>, cleanup: bool)
    requires Chain(worlds, wants, runs, want, cleanup) && |runs| >= 3
    requires forall p :: p in want ==> !Stuck(worlds[0], want, p)
    ensures Quiet(worlds[|runs|], want, cleanup)
  {
    forall p | p in want ensures QuietAt(worlds[|runs|], want, p) {
      ThreeRunsSettle(worlds, wants, runs, want, cleanup, p);
    }
    if cleanup {
      var n := |runs| - 1;
      LinkAt(worlds, wants, runs, want, cleanup, n);
      SameQuiet(want, wants[n], worlds[n + 1], cleanup);
      forall q ensures !Orphan(worlds[|runs|], want, q) {
        NoOrphansLeft(worlds[n], wants[n], runs[n].actions, runs[n].restored, worlds[n + 1], q);
      }
    }
  }
}
