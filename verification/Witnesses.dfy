// Concrete states in which a property that one might expect of every run fails, and the general reason.
module Witnesses {
  import opened Docker
  import opened Engine
  import opened Rotation
  import opened Stages
  import opened Payload
  import opened ExternalStorage
  import opened Planning
  import opened SecretName
  import opened Collisions
  import opened Stability
  import opened Currency
  import opened History

  const PARENT := SecretId(1)
  const VERSION := SecretId(2)
  const TARGET := FileTarget("/run/secrets/a", "0", "0", 292)

  function OldParent(managed: bool): Secret {
    Secret("a", "a", "a", "1", "", managed, "old", 1)
  }

  function NewVersion(managed: bool): Secret {
    Secret("a-2", "a", "a", "2", "", managed, "new", 2)
  }

  // A run stopped after the rollout of version 2: the service is on the version, the parent is still version 1.
  function Interrupted(managed: bool): World {
    World(map[PARENT := OldParent(managed), VERSION := NewVersion(managed)],
          map["web" := Service(0, [Ref(TARGET, "a-2", VERSION)])], 3, 3)
  }

  function Version2(): map<string, Want> {
    map["a" := Want("2", "new", "", "a", "a-2")]
  }

  lemma InterruptedIsWellFormed(managed: bool)
    ensures WellFormed(Interrupted(managed))
  {
  }

  lemma InterruptedIsCompatible(managed: bool)
    ensures Compatible(Interrupted(managed), Version2())
  {
    assert "a-2"[1] == '-';
  }

  lemma InterruptedIsReady(managed: bool)
    ensures Ready(Interrupted(managed), Version2())
    ensures Parented(Interrupted(managed), "a") && ParentOf(Interrupted(managed), "a") == PARENT
    ensures LatestIs(Interrupted(managed), "a", "2") && (Managed(Interrupted(managed), "a") <==> managed)
  {
    InterruptedIsWellFormed(managed);
    InterruptedIsCompatible(managed);
    hide WellFormed, Compatible;
    var w := Interrupted(managed);
    assert IsParent(w, "a", PARENT) && InGroup(w, "a", PARENT) && InGroup(w, "a", VERSION);
    assert IsLatest(w, "a", VERSION);
    assert NamesUnique(w);
    ParentUnique(w, "a", PARENT);
  }

  // The next successful run moves the service back to the old version.
  function MovedBack(): World {
    World(map[PARENT := OldParent(true)], map["web" := Service(1, [Ref(TARGET, "a", PARENT)])], 3, 3)
  }

  lemma MovedBackIsWellFormed()
    ensures WellFormed(MovedBack())
  {
  }

  lemma MovedBackRefs()
    ensures Moved(Interrupted(true), Version2(), map["a" := Kept], MovedBack())
  {
    hide Ready, LatestIs;
    var w, want, run := Interrupted(true), Version2(), map["a" := Kept];
    InterruptedIsReady(true);
    var r := w.services["web"].refs[0];
    assert Move(w, want, run, r) == Ref(TARGET, "a", PARENT);
    assert MoveAll(w, want, run, w.services["web"].refs) == [Ref(TARGET, "a", PARENT)];
  }

  lemma MovedBackPath()
    ensures PathOutcome(Interrupted(true), Version2(), "a", Kept, map[], MovedBack())
  {
    hide Ready, LatestIs;
    InterruptedIsReady(true);
  }

  // A successful run from a ready state can take a service from the wanted version back to an older one.
  lemma SuccessCanGoBack()
    ensures Ready(Interrupted(true), Version2())
    ensures Completed(Interrupted(true), Version2(), map["a" := Kept], map[], false, MovedBack())
    ensures CurrentAt(Interrupted(true), Version2(), "a") && !CurrentAt(MovedBack(), Version2(), "a")
  {
    InterruptedIsReady(true);
    InterruptedIsWellFormed(true);
    MovedBackIsWellFormed();
    MovedBackRefs();
    MovedBackPath();
    hide WellFormed, Ready, Moved, PathOutcome, LatestIs, Parented, Managed, ParentOf;
    assert InGroup(MovedBack(), "a", MovedBack().services["web"].refs[0].secretId);
  }

  // Without any managed label the same state never settles, however many runs complete.
  lemma UnmanagedStaysStuck(worlds: seq<World>, wants: seq<map<string, Want>>, runs: seq<Run>, cleanup: bool)
    requires Chain(worlds, wants, runs, Version2(), cleanup) && worlds[0] == Interrupted(false)
    ensures !Settled(worlds[|runs|], Version2(), "a")
  {
    InterruptedIsReady(false);
    assert Stuck(worlds[0], Version2(), "a");
    ChainRank(worlds, wants, runs, Version2(), cleanup, "a", |runs|);
  }

  // ---------------------------------------------------------------- the hypotheses can be met

  const LONG := "0123456789012345678901234567890123456789012345678901234567890123"

  // Version 2, then a version whose id is too long for a composed name, wanted by two runs that draw their own names.
  function Later(name: string): map<string, Want> {
    map["a" := Want(LONG, "third", "", "a", name)]
  }

  lemma LaterNames()
    ensures DrawsName("a", LONG) && !DrawsName("a", "2") && LONG != "2"
    ensures Version2()["a"].versionName == "a" + "-" + "2"
    ensures "a-2" != "a" && "u-1" != "a" && "u-2" != "a" && "u-1" != "a-2" && "u-2" != "a-2" && "u-1" != "u-2"
  {
  }

  lemma BeginsForLater(name: string)
    requires name !in {"a", "a-2"}
    ensures BeginsFor(Interrupted(true), Later(name)) && !NameTaken(Interrupted(true), name)
  {
  }

  lemma BeginsForVersion2()
    ensures BeginsFor(Interrupted(true), Version2())
  {
    InterruptedIsCompatible(true);
    LaterNames();
    hide Compatible;
  }

  function Nth(k: int): map<string, Want>
    requires 0 <= k < 3
  {
    if k == 0 then Version2() else if k == 1 then Later("u-1") else Later("u-2")
  }

  lemma NthIs(k: int)
    requires 0 <= k < 3
    ensures Nth(k) == map["a" := Nth(k)["a"]] && Nth(k)["a"].versionName == ["a-2", "u-1", "u-2"][k]
    ensures Nth(k)["a"].versionId == if k == 0 then "2" else LONG
  {
  }

  lemma NamedOne(u: Want)
    requires DrawsName("a", u.versionId) || u.versionName == "a" + "-" + u.versionId
    ensures Named(map["a" := u]) && "" !in map["a" := u]
  {
  }

  lemma NthBegins(k: int)
    requires 0 <= k < 3
    ensures BeginsFor(Interrupted(true), Nth(k))
  {
    BeginsForVersion2();
    BeginsForLater("u-1");
    BeginsForLater("u-2");
    hide BeginsFor, Interrupted, Version2, Later, NameTaken;
  }

  lemma NthFacts(k: int)
    requires 0 <= k < 3
    ensures Named(Nth(k)) && "" !in Nth(k) && BeginsFor(Interrupted(true), Nth(k))
  {
    LaterNames();
    NthIs(k);
    NthBegins(k);
    hide *;
    assert k == 0 ==> Nth(k)["a"].versionName == "a" + "-" + "2";
    NamedOne(Nth(k)["a"]);
  }

  lemma Pair(u: Want, v: Want)
    requires u.versionName != "a" && v.versionName != "a"
    ensures NamesApart(map["a" := u], map["a" := v])
    ensures u.versionName != v.versionName ==> DrawnFresh(map["a" := u], map["a" := v])
    ensures !NameTaken(Interrupted(true), v.versionName) || u.versionId == v.versionId ==>
              NotSuperseded(Interrupted(true), map["a" := u], map["a" := v])
  {
  }

  lemma NthPairs(j: int, k: int)
    requires 0 <= j <= k < 3
    ensures NamesApart(Nth(j), Nth(k)) && (j < k ==> DrawnFresh(Nth(j), Nth(k)))
    ensures NotSuperseded(Interrupted(true), Nth(j), Nth(k))
  {
    LaterNames();
    NthIs(j);
    NthIs(k);
    BeginsForLater("u-1");
    BeginsForLater("u-2");
    hide *;
    Pair(Nth(j)["a"], Nth(k)["a"]);
  }

  lemma NthReturns(i: int, j: int, k: int)
    requires 0 <= i <= j <= k < 3
    ensures NoReturn(Nth(i), Nth(j), Nth(k))
  {
  }

  // The interrupted state meets the hypotheses for three snapshots, the last two of which agree but for drawn names.
  lemma HypothesesCanHold()
    ensures Hypotheses(Interrupted(true), seq(3, k requires 0 <= k < 3 => Nth(k)))
    ensures SameSnapshot(Nth(1), Nth(2))
  {
    InterruptedIsWellFormed(true);
    hide WellFormed, BeginsFor, Named, NamesApart, DrawnFresh, NotSuperseded, NoReturn, Interrupted;
    forall j, k | 0 <= j <= k < 3
      ensures Named(Nth(k)) && "" !in Nth(k) && BeginsFor(Interrupted(true), Nth(k)) && NamesApart(Nth(j), Nth(k))
      ensures NotSuperseded(Interrupted(true), Nth(j), Nth(k)) && (j < k ==> DrawnFresh(Nth(j), Nth(k)))
    {
      NthFacts(k);
      NthPairs(j, k);
    }
    forall i, j, k | 0 <= i <= j <= k < 3 ensures NoReturn(Nth(i), Nth(j), Nth(k)) {
      NthReturns(i, j, k);
    }
  }

  // ---------------------------------------------------------------- names that are taken

  // A state without services whose secrets came one after the other.
  function Holding(secrets: seq<Secret>): World {
    World(map k | 0 <= k < |secrets| :: SecretId(k + 1) := secrets[k], map[], |secrets| + 1, |secrets| + 1)
  }

  lemma HoldingAt(secrets: seq<Secret>, k: nat)
    requires k < |secrets|
    ensures SecretId(k + 1) in Holding(secrets).secrets && Holding(secrets).secrets[SecretId(k + 1)] == secrets[k]
  {
  }

  lemma HoldingOnly(secrets: seq<Secret>, i: SecretId)
    requires i in Holding(secrets).secrets
    ensures 0 < i.serial <= |secrets| && Holding(secrets).secrets[i] == secrets[i.serial - 1]
  {
  }

  lemma HoldingIsWellFormed(secrets: seq<Secret>)
    requires forall k :: 0 <= k < |secrets| ==> secrets[k].updatedAt == k + 1
    requires forall j, k :: 0 <= j < k < |secrets| ==> secrets[j].name != secrets[k].name
    ensures WellFormed(Holding(secrets))
  {
    var w := Holding(secrets);
    assert w.services == map[] && w.serial == w.now == |secrets| + 1;
    forall i | i in w.secrets ensures 0 < i.serial <= |secrets| && w.secrets[i] == secrets[i.serial - 1] {
      HoldingOnly(secrets, i);
    }
    hide Holding;
    assert StampsDistinct(w) && NamesUnique(w);
  }

  lemma HoldingMore(secrets: seq<Secret>, more: Secret, want: map<string, Want>)
    requires more.updatedAt == |secrets| + 1 && MadeFor(want, more)
    ensures Grown(Holding(secrets), want, Holding(secrets + [more]))
  {
    var all := secrets + [more];
    forall i | i in Holding(all).secrets
      ensures i.serial <= |secrets| ==> i in Holding(secrets).secrets &&
                                        Holding(all).secrets[i] == Holding(secrets).secrets[i]
      ensures i.serial > |secrets| ==> Holding(all).secrets[i] == more
    {
      HoldingOnly(all, i);
      if i.serial <= |secrets| {
        HoldingAt(secrets, i.serial - 1);
      }
    }
    hide MadeFor;
  }

  function KeyWant(path: string, versionId: string): Want {
    Want(versionId, "value", "", path, path + "-" + versionId)
  }

  function KeyParent(path: string, versionId: string, updatedAt: int): Secret {
    ParentSecret(path, KeyWant(path, versionId)).(updatedAt := updatedAt)
  }

  function KeyVersion(path: string, versionId: string, updatedAt: int): Secret {
    VersionSecret(path, path, KeyWant(path, versionId)).(updatedAt := updatedAt)
  }

  lemma HoldingLatest(secrets: seq<Secret>, path: string, latest: nat)
    requires forall k :: 0 <= k < |secrets| ==> secrets[k].updatedAt == k + 1
    requires latest < |secrets| && secrets[latest].logicalPath == path
    requires forall k :: latest < k < |secrets| ==> secrets[k].logicalPath != path
    ensures IsLatest(Holding(secrets), path, SecretId(latest + 1))
  {
    var w := Holding(secrets);
    HoldingAt(secrets, latest);
    forall i | InGroup(w, path, i) ensures w.secrets[i].updatedAt <= latest + 1 {
      HoldingOnly(secrets, i);
      assert i.serial - 1 <= latest;
    }
  }

  // A path that is to get another version is blocked by whatever has the name.
  lemma BlockedBy(w: World, want: map<string, Want>, path: string, parent: SecretId, latest: SecretId, i: SecretId)
    requires StampsDistinct(w) && path in want && IsParent(w, path, parent)
    requires IsLatest(w, path, latest) && w.secrets[latest].externalId != want[path].versionId
    requires i in w.secrets && w.secrets[i].name == want[path].versionName
    ensures Blocked(w, want, path)
  {
  }

  lemma HoldingBlocks(secrets: seq<Secret>, want: map<string, Want>, path: string, latest: nat, holder: nat)
    requires latest < |secrets| && holder < |secrets| && path in want && WellFormed(Holding(secrets))
    requires forall k :: 0 <= k < |secrets| ==> secrets[k].updatedAt == k + 1
    requires secrets[0].name == secrets[0].logicalPath == path
    requires secrets[latest].logicalPath == path && secrets[latest].externalId != want[path].versionId
    requires forall k :: latest < k < |secrets| ==> secrets[k].logicalPath != path
    requires secrets[holder].name == want[path].versionName
    ensures Blocked(Holding(secrets), want, path)
  {
    HoldingAt(secrets, 0);
    HoldingAt(secrets, latest);
    HoldingAt(secrets, holder);
    HoldingLatest(secrets, path, latest);
    hide Holding, Blocked, IsLatest;
    BlockedBy(Holding(secrets), want, path, SecretId(1), SecretId(latest + 1), SecretId(holder + 1));
  }

  // Two keys, one of which is called as a version of the other would be, as one synchronisation at version 1 left them.
  function TwoParents(): seq<Secret> {
    [KeyParent("db", "1", 1), KeyParent("db-2", "1", 2)]
  }

  function TwoKeys(): map<string, Want> {
    map["db" := KeyWant("db", "2"), "db-2" := KeyWant("db-2", "2")]
  }

  // At version 2 of both the one is blocked by the other.
  lemma KeyNamedLikeVersion()
    ensures WellFormed(Holding(TwoParents())) && Named(TwoKeys()) && Blocked(Holding(TwoParents()), TwoKeys(), "db")
  {
    hide WellFormed, Holding, Blocked;
    assert |"db"| != |"db-2"| && "1" != "2" && "db" + "-" + "2" == "db-2";
    HoldingIsWellFormed(TwoParents());
    HoldingBlocks(TwoParents(), TwoKeys(), "db", 0, 1);
  }

  // One key, and what runs for version 2 and then for version 3 add when each of them stops after step 3.
  function Leftovers(): seq<Secret> {
    [KeyParent("db", "1", 1), KeyVersion("db", "2", 2), KeyVersion("db", "3", 3)]
  }

  function OneKey(versionId: string): map<string, Want> {
    map["db" := KeyWant("db", versionId)]
  }

  // A version that comes back after it was superseded is blocked by what it left.
  lemma VersionComesBack()
    ensures var worlds := [Holding(Leftovers()[..1]), Holding(Leftovers()[..2]), Holding(Leftovers())];
            Attempts(worlds, [OneKey("2"), OneKey("3"), OneKey("2")]) && WellFormed(worlds[0])
    ensures Blocked(Holding(Leftovers()), OneKey("2"), "db")
  {
    hide WellFormed, Holding, Blocked, Grown;
    var all := Leftovers();
    assert |"db"| == 2 && "db" + "-" + "2" == "db-2" && "db" + "-" + "3" == "db-3" && "db-2"[3] != "db-3"[3];
    assert all[..1] + [all[1]] == all[..2] && all[..2] + [all[2]] == all;
    HoldingIsWellFormed(all[..1]);
    HoldingIsWellFormed(all[..2]);
    HoldingIsWellFormed(all);
    HoldingMore(all[..1], all[1], OneKey("2"));
    HoldingMore(all[..2], all[2], OneKey("3"));
    HoldingBlocks(all, OneKey("2"), "db", 2, 1);
    TwoAttempts(Holding(all[..1]), OneKey("2"), Holding(all[..2]), OneKey("3"), Holding(all), OneKey("2"));
  }

  lemma TwoAttempts(
    w0: World, want0: map<string, Want>, w1: World, want1: map<string, Want>, w2: World, want2: map<string, Want>)
    requires Attempted(w0, want0, w1) && Attempted(w1, want1, w2)
    ensures Attempts([w0, w1, w2], [want0, want1, want2])
  {
  }

  // ---------------------------------------------------------------- colliding paths

  const COLLIDING := "a-b"

  // The service is on a version that is newer than the parent.
  function OnVersion(): World {
    World(map[PARENT := Secret("a-b", "a-b", "a/b", "1", "", true, "old", 1),
              VERSION := Secret("a-b-2", "a-b", "a/b", "2", "", true, "new", 2)],
          map["web" := Service(0, [Ref(TARGET, "a-b-2", VERSION)])], 3, 3)
  }

  // Two external paths with one Docker name: one has a new version, the other the version that Swarm holds.
  function Slashed(): External {
    External("a/b", "a/b", "3", "")
  }

  function Dashed(): External {
    External("a-b", "a-b", "2", "")
  }

  function ItemOf(e: External): Item
    requires e.path in {"a/b", "a-b"}
  {
    Item(PreparePath(e.path, '-'),
         WantFor(e, map["a/b" := "third", "a-b" := "new"], Config('-', false, map["a/b" := "", "a-b" := ""])))
  }

  lemma ItemsCollide()
    ensures ItemOf(Slashed()).path == COLLIDING && ItemOf(Dashed()).path == COLLIDING
    ensures ItemOf(Slashed()).wanted.versionId == "3" && ItemOf(Dashed()).wanted.versionId == "2"
  {
  }

  lemma OnVersionIsWellFormed()
    ensures WellFormed(OnVersion())
  {
  }

  lemma OnVersionGroup(services: seq<LoadedService>, groups: map<string, GroupView>)
    requires Loads(services, groups, map[], OnVersion())
    ensures COLLIDING in groups && groups[COLLIDING].LatestVersion().externalId == "2"
    ensures OffParent(OnVersion(), COLLIDING, groups[COLLIDING].id)
  {
    OnVersionIsWellFormed();
    hide WellFormed;
    var w := OnVersion();
    assert IsParent(w, COLLIDING, PARENT) && InGroup(w, COLLIDING, PARENT) && InGroup(w, COLLIDING, VERSION);
    LoadsAt(services, groups, map[], w, COLLIDING);
    assert IsLatest(w, COLLIDING, VERSION);
    assert LatestIs(w, COLLIDING, "2");
    LatestKind(w, COLLIDING, groups[COLLIDING], "2");
    assert IsParent(w, COLLIDING, groups[COLLIDING].id);
    assert w.services["web"].refs[0].secretId == VERSION;
  }

  ghost function Start(groups: map<string, GroupView>): Work {
    Work(groups, map[], [], [], SyncResult(0, 0, 0, 0, 0), map[])
  }

  lemma TwoItems(a: Item, b: Item, p: string, v: string)
    requires a.path == p && b.path == p && a.wanted.versionId != v && b.wanted.versionId == v
    ensures SomeOther([a, b], p, v) && LastIs([a, b], p, v)
    ensures !LastIs([b, a], p, v)
  {
    assert [a, b][0] == a;
  }

  // Processed in one order the plan of step 3 asks for a secret that the rollout puts in use, in the other it does not.
  lemma CollidingPathsRemoveInUse(
    services: seq<LoadedService>, groups: map<string, GroupView>, slashedFirst: bool, c: Work, w': World)
    requires Loads(services, groups, map[], OnVersion())
    requires Runs(Start(groups), services, OnVersion(),
                  if slashedFirst then [ItemOf(Slashed()), ItemOf(Dashed())] else [ItemOf(Dashed()), ItemOf(Slashed())],
                  c, w')
    ensures RemovesInUse(OnVersion(), c, COLLIDING) <==> slashedFirst
  {
    ItemsCollide();
    OnVersionGroup(services, groups);
    StartBegins(services, groups);
    TwoItems(ItemOf(Slashed()), ItemOf(Dashed()), COLLIDING, "2");
    hide *;
    var items :=
      if slashedFirst then [ItemOf(Slashed()), ItemOf(Dashed())] else [ItemOf(Dashed()), ItemOf(Slashed())];
    RemovesInUseExact(OnVersion(), services, Start(groups), items, c, w', COLLIDING);
  }

  lemma StartBegins(services: seq<LoadedService>, groups: map<string, GroupView>)
    requires Loads(services, groups, map[], OnVersion())
    ensures Begins(OnVersion(), services, Start(groups)) && Start(groups).groups == groups
  {
    OnVersionIsWellFormed();
    hide WellFormed, Loads;
  }

  // Nothing refuses the first order: the step goes through.
  lemma CollidingPathsGoThrough(services: seq<LoadedService>, groups: map<string, GroupView>)
    requires Loads(services, groups, map[], OnVersion())
    ensures exists c, w' :: Runs(Start(groups), services, OnVersion(), [ItemOf(Slashed()), ItemOf(Dashed())], c, w')
  {
    ItemsCollide();
    OnVersionGroup(services, groups);
    var w, a, b, c0 := OnVersion(), ItemOf(Slashed()), ItemOf(Dashed()), Start(groups);
    var g := groups[COLLIDING];
    var c1 := Rotating(c0, services, COLLIDING, a.wanted, NextId(w));
    var w1 := AddSecret(w, VersionSecret(g.path, g.externalPath, a.wanted));
    StartBegins(services, groups);
    SlashedNameFree();
    hide *;
    RotatesFirst(c0, services, w, COLLIDING, a.wanted);
    KeepsSecond(c0, services, w1, COLLIDING, a.wanted, NextId(w), b.wanted);
    RunsTwo(c0, services, w, a, b, c1, w1, Keeping(c1, services, COLLIDING), w1);
  }

  lemma RotatesFirst(c: Work, services: seq<LoadedService>, w: World, p: string, wanted: Want)
    requires p in c.groups && c.groups[p].LatestVersion().externalId != wanted.versionId
    requires !NameTaken(w, wanted.versionName)
    ensures Processed(c, services, w, p, wanted, Rotating(c, services, p, wanted, NextId(w)),
                      AddSecret(w, VersionSecret(c.groups[p].path, c.groups[p].externalPath, wanted)))
  {
  }

  lemma KeepsSecond(
    c: Work, services: seq<LoadedService>, w: World, p: string, first: Want, id: SecretId, second: Want)
    requires p in c.groups && c.groups[p].LatestVersion().externalId == second.versionId
    ensures var c1 := Rotating(c, services, p, first, id);
            p in c1.groups && Processed(c1, services, w, p, second, Keeping(c1, services, p), w)
  {
  }

  lemma SlashedNameFree()
    ensures !NameTaken(OnVersion(), ItemOf(Slashed()).wanted.versionName)
  {
    assert PreparePath("a/b", '-') == "a-b";
    var name := ItemOf(Slashed()).wanted.versionName;
    assert name == "a-b" + "-" + "3";
    assert |name| == 5 && name[4] == '3' && |"a-b"| == 3 && "a-b-2"[4] == '2';
  }
}
