// The synchroniser over time: one call after the other, while the external storage changes between the calls and
// failures happen anywhere (internal/application/cs/app.go calls it from a loop).
module Operation {
  import opened Wrappers
  import opened Docker
  import opened Rotation
  import opened Stages
  import opened ExternalStorage
  import opened Synchronizer
  import opened Stability
  import opened Currency
  import opened History

  // What the external storage holds during one run, and the UUIDs that this run draws.
  datatype Snapshot = Snapshot(
    listing: map<string, External>,
    payloads: map<string, string>,
    uuids: map<string, string>)

  // The settings that do not change between runs.
  datatype Settings = Settings(delimiter: char, cleanupOrphaned: bool)

  function ConfigFor(settings: Settings, snapshot: Snapshot): Config {
    Config(settings.delimiter, settings.cleanupOrphaned, snapshot.uuids)
  }

  ghost predicate DescribedBy(want: map<string, Want>, snapshot: Snapshot, settings: Settings) {
    Describes(want, snapshot.listing, snapshot.payloads, ConfigFor(settings, snapshot))
  }

  lemma DescribedIs(want: map<string, Want>, snapshot: Snapshot, settings: Settings)
    requires DescribedBy(want, snapshot, settings)
    ensures Describes(want, snapshot.listing, snapshot.payloads, ConfigFor(settings, snapshot))
    ensures ConfigFor(settings, snapshot).cleanupOrphaned == settings.cleanupOrphaned
  {
  }

  // What one run reports, and what it did.
  datatype Outcome = Outcome(failed: Option<StepName>, cleaned: bool, run: Run)

  predicate Complete(o: Outcome) {
    o.failed.None? && o.cleaned
  }

  // What the code guarantees of one run.
  ghost predicate RanAs(want: map<string, Want>, cleanup: bool, o: Outcome, from: Log, to: Log) {
    && Attempted(from.world, want, to.world) && Safe(from.journal, to.journal)
    && Explains(o.failed, want, from, to)
    && (o.failed.None? && !o.cleaned ==> RemovalFailed(from.journal, to.journal))
    && (Complete(o) ==> SyncPost(from.world, want, o.run.actions, o.run.restored, cleanup, to.world))
    && (o.failed.None? ==> NamesFree(from.world, want))
    && ClashesStay(from.world, want, to.world)
  }

  // One run, for whatever the storage holds now.
  method RunNext(
    engine: Swarm, provider: Provider, snapshot: Snapshot, settings: Settings, ghost want: map<string, Want>)
    returns (ghost outcome: Outcome)
    requires WellFormed(engine.world) && "" !in want && DescribedBy(want, snapshot, settings)
    modifies engine, provider
    ensures RanAs(want, settings.cleanupOrphaned, outcome, old(LogOf(engine, provider)), LogOf(engine, provider))
    ensures WellFormed(engine.world)
  {
    hide RanAs, WellFormed, DescribedBy, Describes, Explains, Safe, SyncPost, NamesFree, ClashesStay, Trimmed, Accounts,
      ResultIs, Grown, Attempted, Quiet, Ready, RemovalFailed;
    DescribedIs(want, snapshot, settings);
    ghost var from := LogOf(engine, provider);
    provider.Change(snapshot.listing, snapshot.payloads);
    assert LogOf(engine, provider) == from;
    var failed, result, cleaned;
    ghost var actions, restored, delivered, gone;
    failed, result, cleaned, actions, restored, delivered, gone :=
      Sync(engine, provider, ConfigFor(settings, snapshot), want);
    outcome := Outcome(failed, cleaned, Run(actions, restored));
    RanIs(want, settings.cleanupOrphaned, outcome, from, LogOf(engine, provider));
  }

  lemma RanIs(want: map<string, Want>, cleanup: bool, o: Outcome, from: Log, to: Log)
    requires WellFormed(to.world) && Grown(from.world, want, to.world) && Safe(from.journal, to.journal)
    requires Explains(o.failed, want, from, to)
    requires o.failed.None? && !o.cleaned ==> RemovalFailed(from.journal, to.journal)
    requires Complete(o) ==> SyncPost(from.world, want, o.run.actions, o.run.restored, cleanup, to.world)
    requires o.failed.None? ==> NamesFree(from.world, want)
    requires ClashesStay(from.world, want, to.world)
    ensures RanAs(want, cleanup, o, from, to)
  {
  }

  // ---------------------------------------------------------------- histories

  ghost predicate RanAt(
    logs: seq<Log>, wants: seq<map<string, Want>>, outcomes: seq<Outcome>, cleanup: bool, k: nat)
    requires k < |outcomes| <= |wants| && k + 1 < |logs|
  {
    RanAs(wants[k], cleanup, outcomes[k], logs[k], logs[k + 1])
  }

  // The runs of the code, one after the other.
  ghost predicate Happened(
    logs: seq<Log>, wants: seq<map<string, Want>>, outcomes: seq<Outcome>, cleanup: bool)
  {
    |logs| == |outcomes| + 1 && |outcomes| <= |wants| &&
    forall k: nat :: k < |outcomes| ==> RanAt(logs, wants, outcomes, cleanup, k)
  }

  lemma HappenedMore(
    logs: seq<Log>, wants: seq<map<string, Want>>, outcomes: seq<Outcome>, cleanup: bool, o: Outcome, to: Log)
    requires Happened(logs, wants, outcomes, cleanup) && |outcomes| < |wants|
    requires RanAs(wants[|outcomes|], cleanup, o, logs[|outcomes|], to)
    ensures Happened(logs + [to], wants, outcomes + [o], cleanup)
  {
    hide RanAs;
    forall k: nat | k < |outcomes| + 1 ensures RanAt(logs + [to], wants, outcomes + [o], cleanup, k) {
      assert k < |outcomes| ==> RanAt(logs, wants, outcomes, cleanup, k);
    }
  }

  // Any history: the storage changes and any request fails.
  method RunAll(
    engine: Swarm, provider: Provider, snapshots: seq<Snapshot>, settings: Settings,
    ghost wants: seq<map<string, Want>>)
    returns (ghost logs: seq<Log>, ghost outcomes: seq<Outcome>)
    requires |wants| == |snapshots| && Begun(engine.world, wants)
    requires forall k :: 0 <= k < |wants| ==> DescribedBy(wants[k], snapshots[k], settings)
    modifies engine, provider
    ensures |outcomes| == |snapshots| && Happened(logs, wants, outcomes, settings.cleanupOrphaned)
    ensures logs[0] == old(LogOf(engine, provider)) && logs[|snapshots|] == LogOf(engine, provider)
  {
    hide RanAs, WellFormed, DescribedBy, LogOf;
    logs, outcomes := [LogOf(engine, provider)], [];
    for k := 0 to |snapshots|
      invariant |outcomes| == k && Happened(logs, wants, outcomes, settings.cleanupOrphaned)
      invariant WellFormed(engine.world)
      invariant logs[0] == old(LogOf(engine, provider)) && logs[k] == LogOf(engine, provider)
    {
      ghost var outcome := RunNext(engine, provider, snapshots[k], settings, wants[k]);
      HappenedMore(logs, wants, outcomes, settings.cleanupOrphaned, outcome, LogOf(engine, provider));
      logs, outcomes := logs + [LogOf(engine, provider)], outcomes + [outcome];
    }
  }

  ghost function Worlds(logs: seq<Log>): (worlds: seq<World>)
    ensures |worlds| == |logs| && forall k :: 0 <= k < |logs| ==> worlds[k] == logs[k].world
  {
    seq(|logs|, k requires 0 <= k < |logs| => logs[k].world)
  }

  lemma HappenedAttempts(logs: seq<Log>, wants: seq<map<string, Want>>, outcomes: seq<Outcome>, cleanup: bool)
    requires Happened(logs, wants, outcomes, cleanup)
    ensures Attempts(Worlds(logs), wants)
  {
    hide Attempted, Explains, Safe, SyncPost, ClashesStay, NamesFree, WellFormed;
    forall k: nat | k + 1 < |logs| ensures AttemptAt(Worlds(logs), wants, k) {
      assert RanAt(logs, wants, outcomes, cleanup, k);
    }
  }

  lemma CompleteAt(
    logs: seq<Log>, wants: seq<map<string, Want>>, outcomes: seq<Outcome>, cleanup: bool, k: nat)
    requires Happened(logs, wants, outcomes, cleanup) && k < |outcomes|
    ensures RanAs(wants[k], cleanup, outcomes[k], logs[k], logs[k + 1])
    ensures Complete(outcomes[k]) ==> CompletedAt(Worlds(logs), wants, k, outcomes[k].run, cleanup)
  {
    hide Attempted, Explains, Safe, SyncPost, ClashesStay, NamesFree, WellFormed;
    assert RanAt(logs, wants, outcomes, cleanup, k);
  }

  // No removal of a secret in use is asked for in any of them.
  lemma {:induction false} SafeThroughout(
    logs: seq<Log>, wants: seq<map<string, Want>>, outcomes: seq<Outcome>, cleanup: bool, n: nat)
    requires Happened(logs, wants, outcomes, cleanup) && n < |logs|
    ensures Safe(logs[0].journal, logs[n].journal)
  {
    hide Attempted, Explains, Safe, SyncPost, ClashesStay, NamesFree;
    if n == 0 {
      SafeSame(logs[0].journal);
    } else {
      SafeThroughout(logs, wants, outcomes, cleanup, n - 1);
      assert RanAt(logs, wants, outcomes, cleanup, n - 1);
      SafeMore(logs[0].journal, logs[n - 1].journal, logs[n].journal);
    }
  }

  // A request failed for good in the run: one that is not tried again, or one that was tried four times.
  ghost predicate Interrupted(want: map<string, Want>, o: Outcome, from: Log, to: Log) {
    && !Complete(o) && NamesFree(from.world, want) && Explains(o.failed, want, from, to)
    && (o.failed.None? ==> RemovalFailed(from.journal, to.journal))
  }

  // With names that do not get in each other's way a run completes unless a request fails for good in it.
  lemma CompleteOrInterrupted(
    logs: seq<Log>, wants: seq<map<string, Want>>, outcomes: seq<Outcome>, cleanup: bool, k: nat)
    requires Happened(logs, wants, outcomes, cleanup) && Hypotheses(logs[0].world, wants) && k < |outcomes|
    ensures Complete(outcomes[k]) || Interrupted(wants[k], outcomes[k], logs[k], logs[k + 1])
  {
    hide *;
    HappenedSizes(logs, wants, outcomes, cleanup);
    HappenedAttempts(logs, wants, outcomes, cleanup);
    ReadyAlways(Worlds(logs), wants, k);
    CompleteAt(logs, wants, outcomes, cleanup, k);
    InterruptedIs(wants[k], cleanup, outcomes[k], logs[k], logs[k + 1]);
  }

  lemma HappenedSizes(logs: seq<Log>, wants: seq<map<string, Want>>, outcomes: seq<Outcome>, cleanup: bool)
    requires Happened(logs, wants, outcomes, cleanup)
    ensures |logs| == |outcomes| + 1 && |outcomes| <= |wants|
  {
  }

  lemma InterruptedIs(want: map<string, Want>, cleanup: bool, o: Outcome, from: Log, to: Log)
    requires RanAs(want, cleanup, o, from, to) && NamesFree(from.world, want)
    ensures Complete(o) || Interrupted(want, o, from, to)
  {
  }

  // Recovery: whatever the history was, three runs for one content of the storage bring every path into its canonical
  // state and leave nothing to write, unless a request fails for good in one of these three.
  lemma ThreeRunsRecover(
    logs: seq<Log>, wants: seq<map<string, Want>>, outcomes: seq<Outcome>, cleanup: bool, want: map<string, Want>,
    of: Payloads)
    requires Happened(logs, wants, outcomes, cleanup) && Hypotheses(logs[0].world, wants)
    requires |outcomes| == |wants| >= 3
    requires forall k :: |wants| - 3 <= k < |wants| ==> SameSnapshot(want, wants[k])
    requires VersionsManaged(logs[0].world)
    requires PayloadsBy(logs[0].world, of) && forall k :: 0 <= k < |wants| ==> WantBy(wants[k], of)
    ensures (exists k: nat :: |wants| - 3 <= k < |wants| &&
                              Interrupted(wants[k], outcomes[k], logs[k], logs[k + 1])) ||
            (Quiet(logs[|wants|].world, want, cleanup) &&
             forall p :: p in want ==> Canonical(logs[|wants|].world, want, p))
  {
    hide *;
    var n := |wants| - 3;
    HappenedSizes(logs, wants, outcomes, cleanup);
    HypothesesBegun(logs[0].world, wants);
    HappenedAttempts(logs, wants, outcomes, cleanup);
    forall k: nat | k < |wants|
      ensures CompletedAt(Worlds(logs), wants, k, outcomes[k].run, cleanup) ||
              Interrupted(wants[k], outcomes[k], logs[k], logs[k + 1])
    {
      CompleteOrInterrupted(logs, wants, outcomes, cleanup, k);
      CompleteAt(logs, wants, outcomes, cleanup, k);
    }
    if forall k: nat :: n <= k < |wants| ==> !Interrupted(wants[k], outcomes[k], logs[k], logs[k + 1]) {
      var runs := [outcomes[n].run, outcomes[n + 1].run, outcomes[n + 2].run];
      forall j: nat | j < |runs| ensures CompletedAt(Worlds(logs), wants, |wants| - 3 + j, runs[j], cleanup) {
        assert runs[j] == outcomes[n + j].run;
        assert !Interrupted(wants[n + j], outcomes[n + j], logs[n + j], logs[n + j + 1]);
      }
      EndsWithIs(Worlds(logs), wants, runs, want, cleanup);
      Recovery(Worlds(logs), wants, of, runs, want, cleanup);
    }
  }

  lemma EndsWithIs(
    worlds: seq<World>, wants: seq<map<string, Want>>, runs: seq<Run>, want: map<string, Want>, cleanup: bool)
    requires |runs| == 3 <= |wants| && |worlds| == |wants| + 1
    requires forall k :: |wants| - 3 <= k < |wants| ==> SameSnapshot(want, wants[k])
    requires forall j: nat :: j < |runs| ==> CompletedAt(worlds, wants, |wants| - 3 + j, runs[j], cleanup)
    ensures EndsWith(worlds, wants, runs, want, cleanup)
  {
    hide SameSnapshot, CompletedAt;
  }

  // Currency: wherever a history stands in a clean state, the next run, for whatever the storage holds then, leaves the
  // state clean and every reference on the version and payload that the storage holds, unless a request fails for good
  // in it.
  lemma NextRunKeepsCurrent(
    logs: seq<Log>, wants: seq<map<string, Want>>, outcomes: seq<Outcome>, cleanup: bool, of: Payloads, k: nat)
    requires Happened(logs, wants, outcomes, cleanup) && Hypotheses(logs[0].world, wants) && k < |outcomes|
    requires PayloadsBy(logs[0].world, of) && forall k :: 0 <= k < |wants| ==> WantBy(wants[k], of)
    requires Clean(logs[k].world)
    ensures Interrupted(wants[k], outcomes[k], logs[k], logs[k + 1]) ||
            (Clean(logs[k + 1].world) && AllServed(logs[k + 1].world, wants[k]))
  {
    hide *;
    HappenedSizes(logs, wants, outcomes, cleanup);
    HypothesesBegun(logs[0].world, wants);
    HappenedAttempts(logs, wants, outcomes, cleanup);
    CompleteOrInterrupted(logs, wants, outcomes, cleanup, k);
    CompleteAt(logs, wants, outcomes, cleanup, k);
    if Complete(outcomes[k]) {
      var worlds, run := Worlds(logs), outcomes[k].run;
      CompletedHere(worlds, wants, k, run, cleanup);
      CleanStays(worlds[k], wants[k], run.actions, run.restored, cleanup, worlds[k + 1]);
      HistoryKeeps(worlds, wants, of, k + 1);
      CurrentServed(worlds[k + 1], wants[k], of);
    }
  }

  // ---------------------------------------------------------------- a name that is taken

  // The snapshots want one version at the path, under one name.
  ghost predicate SameVersionName(a: map<string, Want>, b: map<string, Want>, p: string) {
    p in a && p in b && b[p].versionId == a[p].versionId && b[p].versionName == a[p].versionName
  }

  lemma SameBlocked(w: World, a: map<string, Want>, b: map<string, Want>, p: string)
    requires SameVersionName(a, b, p)
    ensures Blocked(w, a, p) <==> Blocked(w, b, p)
  {
  }

  lemma BlockedStays(want: map<string, Want>, cleanup: bool, o: Outcome, from: Log, to: Log, p: string)
    requires RanAs(want, cleanup, o, from, to) && Blocked(from.world, want, p)
    ensures o.failed.Some? && Blocked(to.world, want, p)
  {
  }

  // A path whose name is taken by another secret makes every run fail while its version is wanted, however often it is
  // tried, whether or not requests fail, and whatever the storage holds at the other paths.
  lemma {:induction false} BlockedFails(
    logs: seq<Log>, wants: seq<map<string, Want>>, outcomes: seq<Outcome>, cleanup: bool, want: map<string, Want>,
    p: string, n: nat)
    requires Happened(logs, wants, outcomes, cleanup) && n < |logs|
    requires Blocked(logs[0].world, want, p) && forall k :: 0 <= k < |wants| ==> SameVersionName(want, wants[k], p)
    ensures Blocked(logs[n].world, want, p)
    ensures forall k: nat :: k < n ==> k < |outcomes| && outcomes[k].failed.Some?
  {
    hide *;
    HappenedSizes(logs, wants, outcomes, cleanup);
    if n > 0 {
      BlockedFails(logs, wants, outcomes, cleanup, want, p, n - 1);
      CompleteAt(logs, wants, outcomes, cleanup, n - 1);
      SameBlocked(logs[n - 1].world, want, wants[n - 1], p);
      BlockedStays(wants[n - 1], cleanup, outcomes[n - 1], logs[n - 1], logs[n], p);
      SameBlocked(logs[n].world, want, wants[n - 1], p);
    }
  }
}
