// Histories of synchronisations: every run has its own external snapshot and draws its own names, and any of them may
// fail anywhere. Hypotheses on names are about the snapshots and the state at the beginning only; that every later
// state has the names free that the next run needs is proved.
module History {
  import opened SecretName
  import opened Docker
  import opened Rotation
  import opened Stages
  import opened ExternalStorage
  import opened Synchronizer
  import opened Stability
  import opened Currency

  // ---------------------------------------------------------------- hypotheses on the snapshots

  // The names of versions are composed from path and version where that fits.
  ghost predicate Named(want: map<string, Want>) {
    forall p :: p in want && !DrawsName(p, want[p].versionId) ==> want[p].versionName == p + "-" + want[p].versionId
  }

  // A version name is never a wanted path, and two paths never get one name.
  ghost predicate NamesApart(a: map<string, Want>, b: map<string, Want>) {
    (forall p, q :: p in a && q in b ==> a[p].versionName != q && b[q].versionName != p) &&
    (forall p, q :: p in a && q in b && a[p].versionName == b[q].versionName ==> p == q)
  }

  // A drawn name is not used in any other run.
  ghost predicate DrawnFresh(a: map<string, Want>, b: map<string, Want>) {
    forall p :: p in a && p in b && a[p].versionName == b[p].versionName ==>
      !DrawsName(p, a[p].versionId) && !DrawsName(p, b[p].versionId)
  }

  // A version that was superseded does not come back.
  ghost predicate NoReturn(a: map<string, Want>, b: map<string, Want>, c: map<string, Want>) {
    forall p :: p in a && p in b && p in c && a[p].versionId == c[p].versionId ==> b[p].versionId == a[p].versionId
  }

  // How the state at the beginning agrees with a snapshot: what is named like a wanted path belongs to it, and a
  // taken version name stands for the wanted version of its own group, not superseded, and was not drawn.
  ghost predicate BeginsFor(w: World, want: map<string, Want>) {
    Compatible(w, want) &&
    forall p :: p in want && NameTaken(w, want[p].versionName) ==> !DrawsName(p, want[p].versionId)
  }

  // Nothing else was wanted before under a version name that the state at the beginning holds.
  ghost predicate NotSuperseded(w: World, before: map<string, Want>, want: map<string, Want>) {
    forall p :: p in before && p in want && NameTaken(w, want[p].versionName) ==>
      before[p].versionId == want[p].versionId
  }

  // The names and versions of the snapshots do not get in each other's way, nor in that of what is there already.
  ghost predicate Unclashing(w: World, wants: seq<map<string, Want>>) {
    && WellFormed(w)
    && (forall k :: 0 <= k < |wants| ==> "" !in wants[k] && BeginsFor(w, wants[k]))
    && (forall j, k :: 0 <= j <= k < |wants| ==> NamesApart(wants[j], wants[k]) && NotSuperseded(w, wants[j], wants[k]))
    && (forall j, k :: 0 <= j < k < |wants| ==> DrawnFresh(wants[j], wants[k]))
    && (forall i, j, k :: 0 <= i <= j <= k < |wants| ==> NoReturn(wants[i], wants[j], wants[k]))
  }

  ghost predicate Hypotheses(w: World, wants: seq<map<string, Want>>) {
    Unclashing(w, wants) && forall k :: 0 <= k < |wants| ==> Named(wants[k])
  }

  // The snapshot of a provider has composed names where they fit.
  lemma DescribesNamed(
    want: map<string, Want>, listing: map<string, External>, payloads: map<string, string>, config: Config)
    requires Describes(want, listing, payloads, config)
    ensures Named(want)
  {
  }

  // ---------------------------------------------------------------- histories

  // A state that Docker can be in, and snapshots whose paths have names.
  ghost predicate Begun(w: World, wants: seq<map<string, Want>>) {
    WellFormed(w) && forall k :: 0 <= k < |wants| ==> "" !in wants[k]
  }

  // What is known of one run: from a state that Docker can be in, it keeps what Sync guarantees whatever fails.
  ghost predicate AttemptAt(worlds: seq<World>, wants: seq<map<string, Want>>, k: nat)
    requires k + 1 < |worlds| <= |wants| + 1
  {
    WellFormed(worlds[k]) && "" !in wants[k] ==> Attempted(worlds[k], wants[k], worlds[k + 1])
  }

  // A history of runs of which nothing more is known. More snapshots may be to come.
  ghost predicate Attempts(worlds: seq<World>, wants: seq<map<string, Want>>) {
    0 < |worlds| <= |wants| + 1 && forall k: nat :: k + 1 < |worlds| ==> AttemptAt(worlds, wants, k)
  }

  // Every run, whatever failed in the runs before and whatever anything is called, finds a state that Docker can be
  // in: all references resolve.
  lemma {:induction false} WellFormedAlways(worlds: seq<World>, wants: seq<map<string, Want>>, n: nat)
    requires Attempts(worlds, wants) && Begun(worlds[0], wants) && n < |worlds|
    ensures |worlds| <= |wants| + 1 && WellFormed(worlds[n])
    ensures n > 0 ==> Attempted(worlds[n - 1], wants[n - 1], worlds[n])
    ensures n < |wants| ==> "" !in wants[n]
  {
    hide WellFormed, Grown;
    if n > 0 {
      WellFormedAlways(worlds, wants, n - 1);
      assert AttemptAt(worlds, wants, n - 1);
    }
  }

  // Run `m` made the secret.
  ghost predicate MadeIn(worlds: seq<World>, wants: seq<map<string, Want>>, m: nat, s: Secret)
    requires m + 1 < |worlds| <= |wants| + 1
  {
    MadeFor(wants[m], s) && worlds[m].now <= s.updatedAt < worlds[m + 1].now
  }

  // The secret was there at the beginning, or some run before `n` made it.
  ghost predicate Origin(worlds: seq<World>, wants: seq<map<string, Want>>, n: nat, i: SecretId)
    requires n < |worlds| <= |wants| + 1 && i in worlds[n].secrets
  {
    (i in worlds[0].secrets && worlds[n].secrets[i] == worlds[0].secrets[i]) ||
    exists m: nat :: m < n && MadeIn(worlds, wants, m, worlds[n].secrets[i])
  }

  ghost predicate Traced(worlds: seq<World>, wants: seq<map<string, Want>>, n: nat)
    requires n < |worlds| <= |wants| + 1
  {
    forall i :: i in worlds[n].secrets ==> Origin(worlds, wants, n, i)
  }

  // Times only grow.
  ghost predicate Ordered(worlds: seq<World>, n: nat)
    requires n < |worlds|
  {
    forall a, b :: 0 <= a <= b <= n ==> worlds[a].now <= worlds[b].now
  }

  lemma TracedMore(worlds: seq<World>, wants: seq<map<string, Want>>, n: nat)
    requires n + 1 < |worlds| <= |wants| + 1 && Traced(worlds, wants, n) && Ordered(worlds, n)
    requires Grown(worlds[n], wants[n], worlds[n + 1]) && InPast(worlds[n + 1])
    ensures Traced(worlds, wants, n + 1) && Ordered(worlds, n + 1)
  {
    hide MadeFor;
    var n', w' := n + 1, worlds[n + 1];
    forall i | i in w'.secrets ensures Origin(worlds, wants, n', i) {
      var s := w'.secrets[i];
      if i in worlds[n].secrets && s == worlds[n].secrets[i] {
        assert Origin(worlds, wants, n, i);
        if !(i in worlds[0].secrets && s == worlds[0].secrets[i]) {
          var m: nat :| m < n && MadeIn(worlds, wants, m, s);
          assert MadeIn(worlds, wants, m, w'.secrets[i]);
        }
      } else {
        assert MadeIn(worlds, wants, n, s);
      }
    }
  }

  // ---------------------------------------------------------------- the next snapshot finds a ready state

  // Run `m` made the secret as the parent or as the version of its path.
  lemma MadeKinds(worlds: seq<World>, wants: seq<map<string, Want>>, m: nat, s: Secret)
    requires m + 1 < |worlds| <= |wants| + 1 && MadeIn(worlds, wants, m, s)
    ensures s.logicalPath in wants[m] && s.externalId == wants[m][s.logicalPath].versionId && s.managed
    ensures s.data == wants[m][s.logicalPath].data
    ensures s.name == s.logicalPath || s.name == wants[m][s.logicalPath].versionName
  {
  }

  // One name in two runs: one path, and the same version composed twice.
  lemma NameTwice(wants: seq<map<string, Want>>, w: World, m: nat, n: nat, q: string, p: string)
    requires Hypotheses(w, wants) && m < n < |wants| && q in wants[m] && p in wants[n]
    requires wants[m][q].versionName == wants[n][p].versionName
    ensures q == p && wants[m][p].versionId == wants[n][p].versionId && !DrawsName(p, wants[n][p].versionId)
  {
    assert NamesApart(wants[m], wants[n]) && DrawnFresh(wants[m], wants[n]) && Named(wants[m]) && Named(wants[n]);
    var u, v := wants[m][p].versionId, wants[n][p].versionId;
    assert (p + "-" + u)[|p| + 1..] == u && (p + "-" + v)[|p| + 1..] == v;
  }

  // The same version composed twice has one name.
  lemma VersionTwice(wants: seq<map<string, Want>>, w: World, m: nat, n: nat, p: string)
    requires Hypotheses(w, wants) && m < |wants| && n < |wants| && p in wants[m] && p in wants[n]
    requires wants[m][p].versionId == wants[n][p].versionId && !DrawsName(p, wants[n][p].versionId)
    ensures wants[m][p].versionName == wants[n][p].versionName
  {
  }

  ghost predicate At(worlds: seq<World>, wants: seq<map<string, Want>>, n: nat) {
    n < |worlds| <= |wants| + 1 && n < |wants| && Hypotheses(worlds[0], wants) && Traced(worlds, wants, n) &&
    Ordered(worlds, n) && WellFormed(worlds[n])
  }

  // The secret that holds the version name which a path needs.
  ghost predicate Holds(worlds: seq<World>, wants: seq<map<string, Want>>, n: nat, p: string, i: SecretId)
    requires n < |worlds| && n < |wants|
  {
    p in wants[n] && i in worlds[n].secrets && worlds[n].secrets[i].name == wants[n][p].versionName
  }

  // A secret of the wanted version is the parent, or the holder itself.
  lemma SameVersion(
    worlds: seq<World>, wants: seq<map<string, Want>>, n: nat, p: string, i: SecretId, m: nat, j: SecretId)
    requires At(worlds, wants, n) && Holds(worlds, wants, n, p, i) && !DrawsName(p, wants[n][p].versionId)
    requires m < n && InGroup(worlds[n], p, j) && MadeIn(worlds, wants, m, worlds[n].secrets[j]) && j != i
    requires wants[m][p].versionId == wants[n][p].versionId
    ensures worlds[n].secrets[j].name == p && worlds[n].secrets[j].externalId == wants[n][p].versionId
  {
    MadeKinds(worlds, wants, m, worlds[n].secrets[j]);
    VersionTwice(wants, worlds[0], m, n, p);
    hide Hypotheses, Traced, MadeIn;
  }

  lemma OldHolder(worlds: seq<World>, wants: seq<map<string, Want>>, n: nat, p: string, i: SecretId)
    requires At(worlds, wants, n) && Holds(worlds, wants, n, p, i)
    requires i in worlds[0].secrets && worlds[n].secrets[i] == worlds[0].secrets[i]
    ensures VersionNameKept(worlds[0], p, wants[n][p]) && !DrawsName(p, wants[n][p].versionId)
    ensures forall m :: 0 <= m <= n && p in wants[m] ==> wants[m][p].versionId == wants[n][p].versionId
  {
  }

  lemma NewHolder(worlds: seq<World>, wants: seq<map<string, Want>>, n: nat, p: string, i: SecretId, m: nat)
    requires At(worlds, wants, n) && Holds(worlds, wants, n, p, i)
    requires m < n && MadeIn(worlds, wants, m, worlds[n].secrets[i])
    ensures worlds[n].secrets[i].logicalPath == p && worlds[n].secrets[i].externalId == wants[n][p].versionId
    ensures !DrawsName(p, wants[n][p].versionId)
    ensures forall k :: m <= k <= n && p in wants[k] ==> wants[k][p].versionId == wants[n][p].versionId
  {
    var s := worlds[n].secrets[i];
    MadeKinds(worlds, wants, m, s);
    assert NamesApart(wants[m], wants[n]);
    NameTwice(wants, worlds[0], m, n, s.logicalPath, p);
    forall k | m <= k <= n && p in wants[k] ensures wants[k][p].versionId == wants[n][p].versionId {
      assert NoReturn(wants[m], wants[k], wants[n]);
    }
  }

  lemma NameKept(worlds: seq<World>, wants: seq<map<string, Want>>, n: nat, p: string, i: SecretId, j: SecretId)
    requires At(worlds, wants, n) && Holds(worlds, wants, n, p, i)
    ensures worlds[n].secrets[i].logicalPath == p && worlds[n].secrets[i].externalId == wants[n][p].versionId
    ensures InGroup(worlds[n], p, j) && j != i ==>
              worlds[n].secrets[j].updatedAt < worlds[n].secrets[i].updatedAt ||
              (worlds[n].secrets[j].name == p && worlds[n].secrets[j].externalId == wants[n][p].versionId)
  {
    var w, first := worlds[n], worlds[0];
    assert Origin(worlds, wants, n, i);
    hide Hypotheses, VersionNameKept, MadeIn;
    if i in first.secrets && w.secrets[i] == first.secrets[i] {
      OldHolder(worlds, wants, n, p, i);
      OldGroup(worlds, wants, n, p, i, j);
    } else {
      var m: nat :| m < n && MadeIn(worlds, wants, m, w.secrets[i]);
      NewHolder(worlds, wants, n, p, i, m);
      NewGroup(worlds, wants, n, p, i, m, j);
    }
  }

  lemma OldGroup(worlds: seq<World>, wants: seq<map<string, Want>>, n: nat, p: string, i: SecretId, j: SecretId)
    requires At(worlds, wants, n) && Holds(worlds, wants, n, p, i)
    requires i in worlds[0].secrets && worlds[n].secrets[i] == worlds[0].secrets[i]
    requires VersionNameKept(worlds[0], p, wants[n][p]) && !DrawsName(p, wants[n][p].versionId)
    requires forall m :: 0 <= m <= n && p in wants[m] ==> wants[m][p].versionId == wants[n][p].versionId
    ensures worlds[n].secrets[i].logicalPath == p && worlds[n].secrets[i].externalId == wants[n][p].versionId
    ensures InGroup(worlds[n], p, j) && j != i ==>
              worlds[n].secrets[j].updatedAt < worlds[n].secrets[i].updatedAt ||
              (worlds[n].secrets[j].name == p && worlds[n].secrets[j].externalId == wants[n][p].versionId)
  {
    var w, first := worlds[n], worlds[0];
    hide Hypotheses, MadeIn;
    if InGroup(w, p, j) && j != i {
      assert Origin(worlds, wants, n, j);
      if j in first.secrets && w.secrets[j] == first.secrets[j] {
        assert InGroup(first, p, j);
      } else {
        var m: nat :| m < n && MadeIn(worlds, wants, m, w.secrets[j]);
        MadeKinds(worlds, wants, m, w.secrets[j]);
        SameVersion(worlds, wants, n, p, i, m, j);
      }
    }
  }

  lemma NewGroup(
    worlds: seq<World>, wants: seq<map<string, Want>>, n: nat, p: string, i: SecretId, m: nat, j: SecretId)
    requires At(worlds, wants, n) && Holds(worlds, wants, n, p, i)
    requires m < n && MadeIn(worlds, wants, m, worlds[n].secrets[i]) && !DrawsName(p, wants[n][p].versionId)
    requires forall k :: m <= k <= n && p in wants[k] ==> wants[k][p].versionId == wants[n][p].versionId
    ensures InGroup(worlds[n], p, j) && j != i ==>
              worlds[n].secrets[j].updatedAt < worlds[n].secrets[i].updatedAt ||
              (worlds[n].secrets[j].name == p && worlds[n].secrets[j].externalId == wants[n][p].versionId)
  {
    var w, first := worlds[n], worlds[0];
    if InGroup(w, p, j) && j != i {
      assert Origin(worlds, wants, n, j);
      if j in first.secrets && w.secrets[j] == first.secrets[j] {
        assert first.now <= worlds[m].now;
      } else {
        var k: nat :| k < n && MadeIn(worlds, wants, k, w.secrets[j]);
        if k < m {
          assert worlds[k + 1].now <= worlds[m].now;
        } else {
          MadeKinds(worlds, wants, k, w.secrets[j]);
          SameVersion(worlds, wants, n, p, i, k, j);
        }
      }
    }
  }

  lemma ParentNameKept(worlds: seq<World>, wants: seq<map<string, Want>>, n: nat, p: string, i: SecretId)
    requires At(worlds, wants, n) && p in wants[n] && i in worlds[n].secrets && worlds[n].secrets[i].name == p
    ensures worlds[n].secrets[i].logicalPath == p
  {
  }

  lemma ReadyAt(worlds: seq<World>, wants: seq<map<string, Want>>, n: nat)
    requires At(worlds, wants, n)
    ensures Ready(worlds[n], wants[n])
  {
    var w, want := worlds[n], wants[n];
    assert NamesApart(want, want) && "" !in want;
    forall p, i | p in want && i in w.secrets
      ensures w.secrets[i].name == p ==> w.secrets[i].logicalPath == p
    {
      if w.secrets[i].name == p {
        ParentNameKept(worlds, wants, n, p, i);
      }
    }
    forall p | p in want ensures VersionNameKept(w, p, want[p]) {
      forall i, j | Holds(worlds, wants, n, p, i)
        ensures w.secrets[i].logicalPath == p && w.secrets[i].externalId == want[p].versionId
        ensures InGroup(w, p, j) && j != i ==>
                  w.secrets[j].updatedAt < w.secrets[i].updatedAt ||
                  (w.secrets[j].name == p && w.secrets[j].externalId == want[p].versionId)
      {
        NameKept(worlds, wants, n, p, i, j);
      }
      assert forall i :: i in w.secrets && w.secrets[i].name == want[p].versionName ==> Holds(worlds, wants, n, p, i);
    }
  }

  // Every run of a history, whatever failed in the runs before, finds the names that it needs free, and so only a
  // failing request can stop it.
  lemma {:induction false} ReadyAlways(worlds: seq<World>, wants: seq<map<string, Want>>, n: nat)
    requires Attempts(worlds, wants) && Hypotheses(worlds[0], wants) && n < |worlds|
    ensures |worlds| <= |wants| + 1 && WellFormed(worlds[n])
    ensures n < |wants| ==> Ready(worlds[n], wants[n]) && NamesFree(worlds[n], wants[n])
  {
    hide *;
    HypothesesBegun(worlds[0], wants);
    WellFormedAlways(worlds, wants, n);
    TracedAlways(worlds, wants, n);
    if n < |wants| {
      AtIs(worlds, wants, n);
      ReadyAt(worlds, wants, n);
      ReadyNamesFree(worlds[n], wants[n]);
    }
  }

  lemma HypothesesBegun(w: World, wants: seq<map<string, Want>>)
    requires Hypotheses(w, wants)
    ensures Begun(w, wants)
  {
  }

  lemma AtIs(worlds: seq<World>, wants: seq<map<string, Want>>, n: nat)
    requires n < |worlds| <= |wants| + 1 && n < |wants| && Hypotheses(worlds[0], wants)
    requires Traced(worlds, wants, n) && Ordered(worlds, n) && WellFormed(worlds[n])
    ensures At(worlds, wants, n)
  {
  }

  lemma {:induction false} TracedAlways(worlds: seq<World>, wants: seq<map<string, Want>>, n: nat)
    requires Attempts(worlds, wants) && Begun(worlds[0], wants) && n < |worlds|
    ensures |worlds| <= |wants| + 1 && Traced(worlds, wants, n) && Ordered(worlds, n)
  {
    hide *;
    if n == 0 {
      HistoryStart(worlds, wants);
    } else {
      TracedAlways(worlds, wants, n - 1);
      WellFormedAlways(worlds, wants, n);
      AttemptedParts(worlds[n - 1], wants[n - 1], worlds[n]);
      TracedMore(worlds, wants, n - 1);
    }
  }

  lemma HistoryStart(worlds: seq<World>, wants: seq<map<string, Want>>)
    requires Attempts(worlds, wants)
    ensures Traced(worlds, wants, 0) && Ordered(worlds, 0) && |worlds| <= |wants| + 1
  {
  }

  lemma AttemptedParts(w: World, want: map<string, Want>, w': World)
    requires Attempted(w, want, w')
    ensures Grown(w, want, w') && WellFormed(w') && InPast(w')
  {
  }

  // ---------------------------------------------------------------- what follows

  // Managed labels and payloads are right in every state of a history.
  lemma {:induction false} HistoryKeeps(worlds: seq<World>, wants: seq<map<string, Want>>, of: Payloads, n: nat)
    requires Attempts(worlds, wants) && Begun(worlds[0], wants) && n < |worlds|
    requires PayloadsBy(worlds[0], of) && forall k :: 0 <= k < |wants| ==> WantBy(wants[k], of)
    ensures PayloadsBy(worlds[n], of)
    ensures VersionsManaged(worlds[0]) ==> VersionsManaged(worlds[n])
  {
    hide *;
    if n > 0 {
      HistoryKeeps(worlds, wants, of, n - 1);
      WellFormedAlways(worlds, wants, n);
      AttemptedParts(worlds[n - 1], wants[n - 1], worlds[n]);
      PayloadsKept(worlds[n - 1], wants[n - 1], of, worlds[n]);
      if VersionsManaged(worlds[n - 1]) {
        GrownManaged(worlds[n - 1], wants[n - 1], worlds[n]);
      }
    }
  }

  // What is known of a run that completed: from a state that Docker can be in, it ends as Sync says.
  ghost predicate CompletedAt(
    worlds: seq<World>, wants: seq<map<string, Want>>, k: nat, run: Run, cleanup: bool)
    requires k + 1 < |worlds| <= |wants| + 1
  {
    WellFormed(worlds[k]) && "" !in wants[k] ==>
      SyncPost(worlds[k], wants[k], run.actions, run.restored, cleanup, worlds[k + 1])
  }

  lemma CompletedHere(
    worlds: seq<World>, wants: seq<map<string, Want>>, k: nat, run: Run, cleanup: bool)
    requires Attempts(worlds, wants) && Begun(worlds[0], wants) && k + 1 < |worlds|
    requires CompletedAt(worlds, wants, k, run, cleanup)
    ensures Completed(worlds[k], wants[k], run.actions, run.restored, cleanup, worlds[k + 1])
  {
    hide Begun, SyncPost, WellFormed, Attempts;
    WellFormedAlways(worlds, wants, k);
    WellFormedAlways(worlds, wants, k + 1);
  }

  // The last runs of the history completed, for one snapshot.
  ghost predicate EndsWith(
    worlds: seq<World>, wants: seq<map<string, Want>>, runs: seq<Run>, want: map<string, Want>, cleanup: bool)
    requires |runs| <= |wants| && |worlds| == |wants| + 1
  {
    var n := |wants| - |runs|;
    forall k: nat :: k < |runs| ==>
      SameSnapshot(want, wants[n + k]) && CompletedAt(worlds, wants, n + k, runs[k], cleanup)
  }

  lemma LastRuns(
    worlds: seq<World>, wants: seq<map<string, Want>>, runs: seq<Run>, want: map<string, Want>, cleanup: bool)
    requires Attempts(worlds, wants) && Begun(worlds[0], wants) && |worlds| == |wants| + 1 && |runs| <= |wants|
    requires EndsWith(worlds, wants, runs, want, cleanup)
    ensures Chain(worlds[|wants| - |runs|..], wants[|wants| - |runs|..], runs, want, cleanup)
  {
    hide Begun, Completed, CompletedAt, SameSnapshot, Attempts;
    var n := |wants| - |runs|;
    var lastWorlds, lastWants := worlds[n..], wants[n..];
    forall k: nat | k < |runs| ensures Link(lastWorlds, lastWants, runs, k, want, cleanup) {
      assert CompletedAt(worlds, wants, n + k, runs[k], cleanup);
      CompletedHere(worlds, wants, n + k, runs[k], cleanup);
      assert lastWorlds[k] == worlds[n + k] && lastWorlds[k + 1] == worlds[n + k + 1] && lastWants[k] == wants[n + k];
    }
  }

  // Recovery: after any number of runs that failed anywhere, each for its own snapshot and with its own names, three
  // or more completed ones for one snapshot settle every path, with the wanted payload, and leave nothing to write.
  lemma Recovery(
    worlds: seq<World>, wants: seq<map<string, Want>>, of: Payloads, runs: seq<Run>, want: map<string, Want>,
    cleanup: bool)
    requires Attempts(worlds, wants) && Begun(worlds[0], wants) && VersionsManaged(worlds[0])
    requires PayloadsBy(worlds[0], of) && forall k :: 0 <= k < |wants| ==> WantBy(wants[k], of)
    requires |worlds| == |wants| + 1 && 3 <= |runs| <= |wants| && EndsWith(worlds, wants, runs, want, cleanup)
    ensures forall p :: p in want ==> Canonical(worlds[|wants|], want, p)
    ensures Quiet(worlds[|wants|], want, cleanup)
  {
    hide *;
    var n := |wants| - |runs|;
    var lastWorlds, lastWants := worlds[n..], wants[n..];
    LastRuns(worlds, wants, runs, want, cleanup);
    LinkAt(lastWorlds, lastWants, runs, want, cleanup, 0);
    WellFormedAlways(worlds, wants, n);
    WellFormedAlways(worlds, wants, |wants|);
    HistoryKeeps(worlds, wants, of, n);
    HistoryKeeps(worlds, wants, of, |wants|);
    SameWantBy(want, wants[n], of);
    forall p | p in want ensures !Stuck(worlds[n], want, p) {
      ManagedNotStuck(worlds[n], want, p);
    }
    forall p | p in want ensures Canonical(worlds[|wants|], want, p) {
      ThreeRunsSettle(lastWorlds, lastWants, runs, want, cleanup, p);
      SettledCanonical(worlds[|wants|], want, of, p);
    }
    ThreeRunsQuiet(lastWorlds, lastWants, runs, want, cleanup);
  }

  lemma SameWantBy(a: map<string, Want>, b: map<string, Want>, of: Payloads)
    requires SameSnapshot(a, b) && WantBy(b, of)
    ensures WantBy(a, of)
  {
  }

  // Currency: from a clean state, over any history of completed runs, each for its own snapshot, every run leaves all
  // references into wanted groups on the wanted version with the wanted payload.
  lemma {:induction false} CleanForever(
    worlds: seq<World>, wants: seq<map<string, Want>>, of: Payloads, runs: seq<Run>, cleanup: bool, n: nat)
    requires Attempts(worlds, wants) && Begun(worlds[0], wants) && Clean(worlds[0])
    requires PayloadsBy(worlds[0], of) && forall k :: 0 <= k < |wants| ==> WantBy(wants[k], of)
    requires n < |worlds| && |runs| + 1 == |worlds|
    requires forall k: nat :: k < |runs| ==> CompletedAt(worlds, wants, k, runs[k], cleanup)
    ensures Clean(worlds[n])
    ensures n > 0 ==> AllServed(worlds[n], wants[n - 1])
  {
    hide *;
    if n > 0 {
      CleanForever(worlds, wants, of, runs, cleanup, n - 1);
      WellFormedAlways(worlds, wants, n);
      CompletedHere(worlds, wants, n - 1, runs[n - 1], cleanup);
      CleanStays(worlds[n - 1], wants[n - 1], runs[n - 1].actions, runs[n - 1].restored, cleanup, worlds[n]);
      HistoryKeeps(worlds, wants, of, n);
      CurrentServed(worlds[n], wants[n - 1], of);
    }
  }
}
