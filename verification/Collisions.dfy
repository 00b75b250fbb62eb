// What step 3 plans when external paths share a Docker name: exactly when a removal then asks for a secret in use
// (internal/sync/step3_process_secrets.go).
module Collisions {
  import opened Wrappers
  import opened Docker
  import opened Engine
  import opened Rotation
  import opened Grouping
  import opened Rollout
  import opened Payload
  import opened Planning
  import opened RemoveVersions

  // An external secret by its Docker name.
  datatype Item = Item(path: string, wanted: Want)

  // The external secrets are processed one after the other; nothing is said about their names.
  ghost predicate Runs(
    c0: Work, services: seq<LoadedService>, w0: World, items: seq<Item>, c: Work, w: World)
    decreases |items|
  {
    if items == [] then c == c0 && w == w0
    else
      var n := |items| - 1;
      exists c1, w1 ::
        Runs(c0, services, w0, items[..n], c1, w1) &&
        Processed(c1, services, w1, items[n].path, items[n].wanted, c, w)
  }

  lemma RunsTwo(
    c0: Work, services: seq<LoadedService>, w0: World, a: Item, b: Item, c1: Work, w1: World, c2: Work, w2: World)
    requires Processed(c0, services, w0, a.path, a.wanted, c1, w1)
    requires Processed(c1, services, w1, b.path, b.wanted, c2, w2)
    ensures Runs(c0, services, w0, [a, b], c2, w2)
  {
    hide Processed;
    assert [a][..0] == [] && [a, b][..1] == [a];
    assert Runs(c0, services, w0, [], c0, w0);
    assert Runs(c0, services, w0, [a], c1, w1);
  }

  ghost predicate RotationQueued(c: Work, p: string) {
    exists k :: 0 <= k < |c.removals| && c.removals[k].secret.path == p && c.removals[k].removeParent
  }

  ghost predicate SameGroup(g: GroupView, g0: GroupView) {
    g == g0.(managed := g.managed)
  }

  // Where the queue sends a reference into the group of `p`.
  ghost predicate EntryFits(w: World, g: GroupView, c: Work, p: string, s: ServiceId, i: SecretId) {
    if p !in c.run then !Queued(c.queue, s, i)
    else match c.run[p]
         case Created(_) => false
         case Rotated(_) => Queued(c.queue, s, i) && c.queue[s][i].id !in w.secrets
         case Kept =>
           if i != g.id then Queued(c.queue, s, i) && c.queue[s][i].id == g.id
           else if RotationQueued(c, p) then Queued(c.queue, s, i) && c.queue[s][i].id !in w.secrets
           else !Queued(c.queue, s, i)
  }

  ghost predicate RefersAt(w: World, s: ServiceId, i: SecretId) {
    s in w.services && RefersTo(w.services[s].refs, i)
  }

  ghost predicate EntriesFit(w: World, groups: map<string, GroupView>, c: Work) {
    (forall p, s, i :: p in groups && RefersAt(w, s, i) && InGroup(w, p, i) ==>
       EntryFits(w, groups[p], c, p, s, i)) &&
    (forall s, i :: RefersAt(w, s, i) && i in w.secrets && w.secrets[i].logicalPath !in groups ==>
       !Queued(c.queue, s, i))
  }

  ghost predicate PlansFit(w: World, groups: map<string, GroupView>, c: Work, w': World) {
    && w'.serial >= w.serial
    && c.groups.Keys == groups.Keys
    && (forall p :: p in groups ==> SameGroup(c.groups[p], groups[p]))
    && (forall k :: 0 <= k < |c.removals| ==>
          c.removals[k].secret.path in groups && c.removals[k].secret.path in c.run &&
          SameGroup(c.removals[k].secret, groups[c.removals[k].secret.path]))
    && (forall p :: p in groups && p in c.run && c.run[p].Rotated? ==> RotationQueued(c, p))
  }

  // The state that was loaded, and the work that starts from it.
  ghost predicate Begins(w: World, services: seq<LoadedService>, c: Work) {
    WellFormed(w) && Loads(services, c.groups, map[], w) && c.queue == map[] && c.removals == [] && c.run == map[]
  }

  lemma HitExact(
    w: World, services: seq<LoadedService>, g: GroupView, skip: Option<SecretId>, s: ServiceId, i: SecretId)
    requires WellFormed(w) && Mirrors(g, w, g.path) && ListsServices(services, w) && RefersAt(w, s, i)
    ensures ServiceHits(services, g, skip, s, i) <==> skip != Some(i) && InGroup(w, g.path, i)
  {
  }

  ghost predicate GroupsShown(w: World, services: seq<LoadedService>, groups: map<string, GroupView>) {
    WellFormed(w) && ListsServices(services, w) &&
    forall p :: p in groups ==> groups[p].path == p && Mirrors(groups[p], w, p)
  }

  lemma SameMirrors(w: World, services: seq<LoadedService>, groups: map<string, GroupView>, g: GroupView, p: string)
    requires GroupsShown(w, services, groups) && p in groups && SameGroup(g, groups[p])
    ensures g.path == p && Mirrors(g, w, p) && g.id == groups[p].id && g.versions == groups[p].versions
    ensures g.LatestVersion() == groups[p].LatestVersion()
  {
  }

  lemma EntryKept(
    w: World, g: GroupView, c: Work, c': Work, p: string, x: string, s: ServiceId, i: SecretId, parent: Replacement)
    requires EntryFits(w, g, c, p, s, i) && c'.run == c.run[x := Kept] && (x == p ==> parent.id == g.id)
    requires EntryIs(c.queue, c'.queue, s, i, x == p && i != parent.id, parent)
    requires RotationQueued(c', p) <==> RotationQueued(c, p)
    requires RotationQueued(c, p) ==> p in c.run
    requires p in c.run && c.run[p].Rotated? ==> RotationQueued(c, p)
    ensures EntryFits(w, g, c', p, s, i)
  {
  }

  lemma EntryRotated(
    w: World, g: GroupView, c: Work, c': Work, p: string, x: string, s: ServiceId, i: SecretId, created: Replacement)
    requires EntryFits(w, g, c, p, s, i) && c'.run == c.run[x := Rotated(created.id)] && created.id !in w.secrets
    requires EntryIs(c.queue, c'.queue, s, i, x == p, created)
    requires x != p ==> (RotationQueued(c', p) <==> RotationQueued(c, p))
    ensures EntryFits(w, g, c', p, s, i)
  {
  }

  lemma OneGroup(w: World, p: string, x: string, i: SecretId)
    requires InGroup(w, p, i)
    ensures InGroup(w, x, i) <==> x == p
  {
  }

  lemma PlansParts(w: World, groups: map<string, GroupView>, c: Work, w': World, p: string)
    requires PlansFit(w, groups, c, w')
    ensures w'.serial >= w.serial && c.groups.Keys == groups.Keys
    ensures p in groups ==> SameGroup(c.groups[p], groups[p]) && SameGroup(c.groups[p].(managed := true), groups[p])
    ensures RotationQueued(c, p) ==> p in c.run
    ensures p in groups && p in c.run && c.run[p].Rotated? ==> RotationQueued(c, p)
  {
  }

  lemma NextFresh(w: World, w': World)
    requires InPast(w) && w'.serial >= w.serial
    ensures NextId(w') !in w.secrets
  {
  }

  // One external secret more, of one of the groups.
  lemma EntryStep(
    w: World, services: seq<LoadedService>, groups: map<string, GroupView>, c: Work, w1: World, x: string,
    wanted: Want, c': Work, w': World, p: string, s: ServiceId, i: SecretId)
    requires GroupsShown(w, services, groups) && PlansFit(w, groups, c, w1) && InPast(w)
    requires Processed(c, services, w1, x, wanted, c', w')
    requires p in groups && RefersAt(w, s, i) && InGroup(w, p, i) && EntryFits(w, groups[p], c, p, s, i)
    ensures EntryFits(w, groups[p], c', p, s, i)
  {
    hide *;
    PlansParts(w, groups, c, w1, p);
    PlansParts(w, groups, c, w1, x);
    GroupsShownParts(w, services, groups);
    if x in groups {
      var g, g' := c.groups[x], c.groups[x].(managed := true);
      var parent, created := Replacement(x, g.id), Replacement(wanted.versionName, NextId(w1));
      SameMirrors(w, services, groups, g, x);
      SameMirrors(w, services, groups, g', x);
      OneGroup(w, p, x, i);
      if g.LatestVersion().externalId == wanted.versionId {
        ProcessedKept(c, services, w1, x, wanted);
        KeepingIs(c, services, x);
        HitExact(w, services, g, Some(g.id), s, i);
        ServicesExact(c.queue, services, g, Some(g.id), parent, s, i);
        KeptRotations(c, services, x, p);
        EntryKept(w, groups[p], c, c', p, x, s, i, parent);
      } else {
        NextFresh(w, w1);
        ProcessedRotatedWork(c, services, w1, x, wanted);
        RotatingIs(c, services, x, wanted, NextId(w1));
        HitExact(w, services, g', None, s, i);
        ServicesExact(c.queue, services, g', None, created, s, i);
        RotatedRotations(c, services, x, wanted, NextId(w1), p);
        EntryRotated(w, groups[p], c, c', p, x, s, i, created);
      }
    } else {
      ProcessedMissing(c, services, w1, x, wanted);
      EntryMissing(w, groups[p], c, x, NextId(w1), p, s, i);
    }
  }

  lemma GroupsShownParts(w: World, services: seq<LoadedService>, groups: map<string, GroupView>)
    requires GroupsShown(w, services, groups)
    ensures WellFormed(w) && ListsServices(services, w)
  {
  }

  lemma ProcessedRotatedWork(c: Work, services: seq<LoadedService>, w: World, p: string, wanted: Want)
    requires p in c.groups && c.groups[p].LatestVersion().externalId != wanted.versionId
    ensures forall c', w' :: Processed(c, services, w, p, wanted, c', w') ==>
              c' == Rotating(c, services, p, wanted, NextId(w)) && w'.serial == w.serial + 1
  {
  }

  lemma ProcessedMissing(c: Work, services: seq<LoadedService>, w: World, p: string, wanted: Want)
    requires p !in c.groups
    ensures forall c', w' :: Processed(c, services, w, p, wanted, c', w') ==>
              c' == Creating(c, p, NextId(w)) && w'.serial == w.serial + 1
  {
  }

  lemma EntryMissing(w: World, g: GroupView, c: Work, x: string, id: SecretId, p: string, s: ServiceId, i: SecretId)
    requires EntryFits(w, g, c, p, s, i) && x != p
    ensures EntryFits(w, g, Creating(c, x, id), p, s, i)
  {
  }

  lemma KeptRotations(c: Work, services: seq<LoadedService>, x: string, p: string)
    requires x in c.groups
    ensures RotationQueued(Keeping(c, services, x), p) <==> RotationQueued(c, p)
  {
    hide QueueServices;
    var c' := Keeping(c, services, x);
    if RotationQueued(c, p) {
      var k :| 0 <= k < |c.removals| && c.removals[k].secret.path == p && c.removals[k].removeParent;
      assert c'.removals[k] == c.removals[k];
    }
  }

  lemma RotatedRotations(c: Work, services: seq<LoadedService>, x: string, wanted: Want, id: SecretId, p: string)
    requires x in c.groups && c.groups[x].path == x
    ensures RotationQueued(Rotating(c, services, x, wanted, id), p) <==> RotationQueued(c, p) || p == x
  {
    hide QueueServices;
    var c' := Rotating(c, services, x, wanted, id);
    assert c'.removals[|c.removals|].secret.path == x;
    if RotationQueued(c, p) {
      var k :| 0 <= k < |c.removals| && c.removals[k].secret.path == p && c.removals[k].removeParent;
      assert c'.removals[k] == c.removals[k];
    }
  }

  lemma NotHit(q: Queue, q': Queue, s: ServiceId, i: SecretId, replacement: Replacement)
    requires EntryIs(q, q', s, i, false, replacement) && !Queued(q, s, i)
    ensures !Queued(q', s, i)
  {
  }

  lemma OutsideStep(
    w: World, services: seq<LoadedService>, groups: map<string, GroupView>, c: Work, w1: World, x: string,
    wanted: Want, c': Work, w': World, s: ServiceId, i: SecretId)
    requires GroupsShown(w, services, groups) && PlansFit(w, groups, c, w1)
    requires Processed(c, services, w1, x, wanted, c', w')
    requires RefersAt(w, s, i) && i in w.secrets && w.secrets[i].logicalPath !in groups && !Queued(c.queue, s, i)
    ensures !Queued(c'.queue, s, i)
  {
    hide *;
    PlansParts(w, groups, c, w1, x);
    GroupsShownParts(w, services, groups);
    if x in groups {
      var g, g' := c.groups[x], c.groups[x].(managed := true);
      var parent, created := Replacement(x, g.id), Replacement(wanted.versionName, NextId(w1));
      SameMirrors(w, services, groups, g, x);
      SameMirrors(w, services, groups, g', x);
      GroupPath(w, x, i);
      if g.LatestVersion().externalId == wanted.versionId {
        ProcessedKept(c, services, w1, x, wanted);
        KeepingIs(c, services, x);
        HitExact(w, services, g, Some(g.id), s, i);
        ServicesExact(c.queue, services, g, Some(g.id), parent, s, i);
        NotHit(c.queue, c'.queue, s, i, parent);
      } else {
        ProcessedRotatedWork(c, services, w1, x, wanted);
        RotatingIs(c, services, x, wanted, NextId(w1));
        HitExact(w, services, g', None, s, i);
        ServicesExact(c.queue, services, g', None, created, s, i);
        NotHit(c.queue, c'.queue, s, i, created);
      }
    } else {
      ProcessedMissing(c, services, w1, x, wanted);
      MissingRotations(c, x, NextId(w1), x);
    }
  }

  lemma PlansKept(w: World, groups: map<string, GroupView>, c: Work, w1: World, x: string, c': Work)
    requires PlansFit(w, groups, c, w1) && x in c.groups && c'.groups == c.groups && c'.run == c.run[x := Kept]
    requires c.groups[x].path == x
    requires c'.removals == c.removals || c'.removals == c.removals + [VersionRemoval(c.groups[x], false)]
    requires forall p :: RotationQueued(c', p) <==> RotationQueued(c, p)
    ensures PlansFit(w, groups, c', w1)
  {
    hide RotationQueued;
  }

  lemma PlansRotated(
    w: World, groups: map<string, GroupView>, c: Work, w1: World, x: string, id: SecretId, c': Work, w': World)
    requires PlansFit(w, groups, c, w1) && x in c.groups && c.groups[x].path == x && w'.serial >= w1.serial
    requires c'.groups == c.groups[x := c.groups[x].(managed := true)] && c'.run == c.run[x := Rotated(id)]
    requires c'.removals == c.removals + [VersionRemoval(c.groups[x].(managed := true), true)]
    requires forall p :: RotationQueued(c', p) <==> RotationQueued(c, p) || p == x
    ensures PlansFit(w, groups, c', w')
  {
    hide RotationQueued;
  }

  lemma PlansMissing(
    w: World, groups: map<string, GroupView>, c: Work, w1: World, x: string, id: SecretId, w': World)
    requires PlansFit(w, groups, c, w1) && x !in c.groups && w'.serial >= w1.serial
    ensures PlansFit(w, groups, Creating(c, x, id), w')
  {
    assert forall p :: RotationQueued(Creating(c, x, id), p) <==> RotationQueued(c, p);
    hide RotationQueued;
  }

  lemma PlansStep(
    w: World, services: seq<LoadedService>, groups: map<string, GroupView>, c: Work, w1: World, x: string,
    wanted: Want, c': Work, w': World)
    requires GroupsShown(w, services, groups) && PlansFit(w, groups, c, w1)
    requires Processed(c, services, w1, x, wanted, c', w')
    ensures PlansFit(w, groups, c', w')
  {
    hide *;
    PlansParts(w, groups, c, w1, x);
    if x in groups {
      SameMirrors(w, services, groups, c.groups[x], x);
      if c.groups[x].LatestVersion().externalId == wanted.versionId {
        ProcessedKept(c, services, w1, x, wanted);
        KeepingIs(c, services, x);
        forall p ensures RotationQueued(c', p) <==> RotationQueued(c, p) {
          KeptRotations(c, services, x, p);
        }
        PlansKept(w, groups, c, w1, x, c');
      } else {
        ProcessedRotatedWork(c, services, w1, x, wanted);
        RotatingIs(c, services, x, wanted, NextId(w1));
        forall p ensures RotationQueued(c', p) <==> RotationQueued(c, p) || p == x {
          RotatedRotations(c, services, x, wanted, NextId(w1), p);
        }
        PlansRotated(w, groups, c, w1, x, NextId(w1), c', w');
      }
    } else {
      ProcessedMissing(c, services, w1, x, wanted);
      PlansMissing(w, groups, c, w1, x, NextId(w1), w');
    }
  }

  lemma {:induction false} RunsFit(
    w: World, services: seq<LoadedService>, c0: Work, items: seq<Item>, c: Work, w': World)
    requires Begins(w, services, c0) && Runs(c0, services, w, items, c, w')
    ensures GroupsShown(w, services, c0.groups) && PlansFit(w, c0.groups, c, w') && EntriesFit(w, c0.groups, c)
    decreases |items|
  {
    hide Mirrors, ListsServices, Processed, PlansFit, InGroup;
    BeginsFit(w, services, c0);
    if items != [] {
      var n := |items| - 1;
      var c1, w1 :| Runs(c0, services, w, items[..n], c1, w1) &&
                    Processed(c1, services, w1, items[n].path, items[n].wanted, c, w');
      RunsFit(w, services, c0, items[..n], c1, w1);
      hide Runs, GroupsShown, EntryFits, RefersAt;
      PlansStep(w, services, c0.groups, c1, w1, items[n].path, items[n].wanted, c, w');
      forall p, s, i | p in c0.groups && RefersAt(w, s, i) && InGroup(w, p, i)
        ensures EntryFits(w, c0.groups[p], c, p, s, i)
      {
        EntryStep(w, services, c0.groups, c1, w1, items[n].path, items[n].wanted, c, w', p, s, i);
      }
      forall s, i | RefersAt(w, s, i) && i in w.secrets && w.secrets[i].logicalPath !in c0.groups
        ensures !Queued(c.queue, s, i)
      {
        OutsideStep(w, services, c0.groups, c1, w1, items[n].path, items[n].wanted, c, w', s, i);
      }
    }
  }

  lemma BeginsFit(w: World, services: seq<LoadedService>, c: Work)
    requires Begins(w, services, c)
    ensures GroupsShown(w, services, c.groups) && PlansFit(w, c.groups, c, w) && EntriesFit(w, c.groups, c) && InPast(w)
  {
    hide Mirrors, ListsServices;
  }

  // ---------------------------------------------------------------- what the items decide

  ghost predicate SomeOther(items: seq<Item>, p: string, versionId: string) {
    exists k :: 0 <= k < |items| && items[k].path == p && items[k].wanted.versionId != versionId
  }

  ghost predicate LastIs(items: seq<Item>, p: string, versionId: string)
    decreases |items|
  {
    items != [] &&
    var n := |items| - 1;
    if items[n].path == p then items[n].wanted.versionId == versionId else LastIs(items[..n], p, versionId)
  }

  ghost predicate EndsKept(c: Work, p: string) {
    p in c.run && c.run[p].Kept?
  }

  lemma DecideStep(
    w: World, services: seq<LoadedService>, groups: map<string, GroupView>, c: Work, w1: World, x: string,
    wanted: Want, c': Work, w': World, p: string)
    requires GroupsShown(w, services, groups) && PlansFit(w, groups, c, w1) && p in groups
    requires Processed(c, services, w1, x, wanted, c', w')
    ensures var other := wanted.versionId != groups[p].LatestVersion().externalId;
            (RotationQueued(c', p) <==> RotationQueued(c, p) || (x == p && other)) &&
            (EndsKept(c', p) <==> if x == p then !other else EndsKept(c, p))
  {
    hide *;
    PlansParts(w, groups, c, w1, x);
    if x in groups {
      SameMirrors(w, services, groups, c.groups[x], x);
      if c.groups[x].LatestVersion().externalId == wanted.versionId {
        ProcessedKept(c, services, w1, x, wanted);
        KeepingIs(c, services, x);
        KeptRotations(c, services, x, p);
        EndsWithAction(c, c', x, Kept, p);
      } else {
        ProcessedRotatedWork(c, services, w1, x, wanted);
        RotatingIs(c, services, x, wanted, NextId(w1));
        RotatedRotations(c, services, x, wanted, NextId(w1), p);
        EndsWithAction(c, c', x, Rotated(NextId(w1)), p);
      }
    } else {
      ProcessedMissing(c, services, w1, x, wanted);
      MissingRotations(c, x, NextId(w1), p);
      EndsWithAction(c, c', x, Created(NextId(w1)), p);
    }
  }

  lemma EndsWithAction(c: Work, c': Work, x: string, a: Action, p: string)
    requires c'.run == c.run[x := a]
    ensures EndsKept(c', p) <==> if x == p then a.Kept? else EndsKept(c, p)
  {
  }

  lemma MissingRotations(c: Work, x: string, id: SecretId, p: string)
    ensures RotationQueued(Creating(c, x, id), p) <==> RotationQueued(c, p)
    ensures Creating(c, x, id).run == c.run[x := Created(id)] && Creating(c, x, id).queue == c.queue
  {
  }

  // A rotation is queued when some item of the path has another version; the path ends as kept when its last item
  // has the version that Swarm holds.
  lemma {:induction false} ItemsDecide(
    w: World, services: seq<LoadedService>, c0: Work, items: seq<Item>, c: Work, w': World, p: string)
    requires Begins(w, services, c0) && Runs(c0, services, w, items, c, w') && p in c0.groups
    ensures RotationQueued(c, p) <==> SomeOther(items, p, c0.groups[p].LatestVersion().externalId)
    ensures EndsKept(c, p) <==> LastIs(items, p, c0.groups[p].LatestVersion().externalId)
    decreases |items|
  {
    hide Processed, Begins, GroupsShown, PlansFit;
    if items == [] {
      BeginsParts(w, services, c0);
    } else {
      var n := |items| - 1;
      var c1, w1 :| Runs(c0, services, w, items[..n], c1, w1) &&
                    Processed(c1, services, w1, items[n].path, items[n].wanted, c, w');
      ItemsDecide(w, services, c0, items[..n], c1, w1, p);
      RunsFit(w, services, c0, items[..n], c1, w1);
      DecideStep(w, services, c0.groups, c1, w1, items[n].path, items[n].wanted, c, w', p);
      SomeOtherMore(items, n, p, c0.groups[p].LatestVersion().externalId);
      hide Runs, RotationQueued, EndsKept, SomeOther, EntriesFit;
    }
  }

  lemma BeginsParts(w: World, services: seq<LoadedService>, c: Work)
    requires Begins(w, services, c)
    ensures c.removals == [] && c.run == map[]
  {
  }

  lemma SomeOtherMore(items: seq<Item>, n: nat, p: string, v: string)
    requires n + 1 == |items|
    ensures SomeOther(items, p, v) <==>
            SomeOther(items[..n], p, v) || (items[n].path == p && items[n].wanted.versionId != v)
  {
  }

  // ---------------------------------------------------------------- removals of secrets in use

  // The references of a service after one pass of step 4.
  ghost function After(q: Queue, s: ServiceId, refs: seq<Ref>): (m: seq<Ref>)
    ensures |m| == |refs|
    ensures forall k :: 0 <= k < |refs| ==>
              m[k].secretId == if Queued(q, s, refs[k].secretId) then q[s][refs[k].secretId].id else refs[k].secretId
  {
    if s in q then Swap(q[s], refs) else refs
  }

  // After the rollout some service refers to a secret of the group that step 5 is then asked to remove.
  ghost predicate RemovesInUse(w: World, c: Work, p: string) {
    exists s, k :: s in w.services && 0 <= k < |w.services[s].refs| &&
                   Condemned(w, c, p, After(c.queue, s, w.services[s].refs)[k].secretId)
  }

  ghost predicate Condemned(w: World, c: Work, p: string, i: SecretId) {
    InGroup(w, p, i) && i in Targets(c.removals, |c.removals|)
  }

  // Some service refers to the group, but not to its parent.
  ghost predicate OffParent(w: World, p: string, parent: SecretId) {
    exists s, k :: s in w.services && 0 <= k < |w.services[s].refs| &&
                   InGroup(w, p, w.services[s].refs[k].secretId) && w.services[s].refs[k].secretId != parent
  }

  // Which secrets of a group step 5 is asked to remove.
  lemma CondemnedExact(
    w: World, services: seq<LoadedService>, groups: map<string, GroupView>, c: Work, w': World, p: string, i: SecretId)
    requires GroupsShown(w, services, groups) && PlansFit(w, groups, c, w') && p in groups
    ensures Condemned(w, c, p, i) ==> InGroup(w, p, i) && p in c.run && (i == groups[p].id ==> RotationQueued(c, p))
    ensures RotationQueued(c, p) && InGroup(w, p, i) ==> Condemned(w, c, p, i)
  {
    TargetsExact(c.removals, |c.removals|, i);
    hide Targets;
    if Condemned(w, c, p, i) {
      var k :| 0 <= k < |c.removals| && IsTarget(c.removals[k], i);
      TargetGroup(w, services, groups, c, w', k, i);
    }
    if RotationQueued(c, p) && InGroup(w, p, i) {
      var k :| 0 <= k < |c.removals| && c.removals[k].secret.path == p && c.removals[k].removeParent;
      TargetGroup(w, services, groups, c, w', k, i);
    }
  }

  lemma TargetGroup(
    w: World, services: seq<LoadedService>, groups: map<string, GroupView>, c: Work, w': World, k: nat, i: SecretId)
    requires GroupsShown(w, services, groups) && PlansFit(w, groups, c, w') && k < |c.removals|
    ensures var r := c.removals[k];
            r.secret.path in groups && r.secret.path in c.run && r.secret.id == groups[r.secret.path].id &&
            (IsTarget(r, i) <==> InGroup(w, r.secret.path, i) && (r.removeParent || i != r.secret.id))
  {
    var r := c.removals[k];
    SameMirrors(w, services, groups, r.secret, r.secret.path);
    HasVersionExact(r.secret, w, r.secret.path);
  }

  // Where one reference ends, and whether its secret then goes: `g` is the group of the reference, and `j` where it
  // ends.
  lemma FateInside(
    w: World, g: GroupView, c: Work, x: string, p: string, parent: SecretId, s: ServiceId, i: SecretId, j: SecretId)
    requires EntryFits(w, g, c, x, s, i) && InGroup(w, x, i) && InGroup(w, x, g.id) && (x == p ==> g.id == parent)
    requires j == if Queued(c.queue, s, i) then c.queue[s][i].id else i
    requires Condemned(w, c, p, j) ==> InGroup(w, p, j) && p in c.run && (j == parent ==> RotationQueued(c, p))
    requires RotationQueued(c, p) && InGroup(w, p, j) ==> Condemned(w, c, p, j)
    ensures Condemned(w, c, p, j) <==>
            EndsKept(c, p) && RotationQueued(c, p) && InGroup(w, p, i) && i != parent
  {
  }

  lemma NotCondemned(w: World, c: Work, p: string, i: SecretId)
    requires !InGroup(w, p, i)
    ensures !Condemned(w, c, p, i)
  {
  }

  lemma ReferenceFate(
    w: World, services: seq<LoadedService>, groups: map<string, GroupView>, c: Work, w': World, p: string,
    s: ServiceId, k: int)
    requires GroupsShown(w, services, groups) && PlansFit(w, groups, c, w') && EntriesFit(w, groups, c) && p in groups
    requires s in w.services && 0 <= k < |w.services[s].refs|
    ensures var i := w.services[s].refs[k].secretId;
            Condemned(w, c, p, After(c.queue, s, w.services[s].refs)[k].secretId) <==>
            EndsKept(c, p) && RotationQueued(c, p) && InGroup(w, p, i) && i != groups[p].id
  {
    hide *;
    var i := w.services[s].refs[k].secretId;
    var j := After(c.queue, s, w.services[s].refs)[k].secretId;
    ReferenceGroup(w, services, groups, c, s, k);
    CondemnedExact(w, services, groups, c, w', p, j);
    var x := w.secrets[i].logicalPath;
    if x in groups {
      FateInside(w, groups[x], c, x, p, groups[p].id, s, i, j);
    } else {
      GroupPath(w, p, i);
      NotCondemned(w, c, p, i);
    }
  }

  lemma ReferenceGroup(
    w: World, services: seq<LoadedService>, groups: map<string, GroupView>, c: Work, s: ServiceId, k: int)
    requires GroupsShown(w, services, groups) && EntriesFit(w, groups, c)
    requires s in w.services && 0 <= k < |w.services[s].refs|
    ensures var i := w.services[s].refs[k].secretId;
            i in w.secrets && var x := w.secrets[i].logicalPath;
            InGroup(w, x, i) &&
            if x in groups then EntryFits(w, groups[x], c, x, s, i) && InGroup(w, x, groups[x].id)
            else !Queued(c.queue, s, i)
  {
    var i := w.services[s].refs[k].secretId;
    assert Resolves(w, w.services[s].refs[k]) && RefersAt(w, s, i);
    hide EntryFits;
    assert InGroup(w, w.secrets[i].logicalPath, i);
  }

  // Exactly when the plan asks for a secret in use. External paths with one Docker name make it do so if and only if
  // one of them has another version than Swarm holds, the one that is processed last has that version, and a service
  // refers to the group elsewhere than at its parent. (A path that no other shares never does: its only item cannot
  // be both.)
  lemma RemovesInUseExact(
    w: World, services: seq<LoadedService>, c0: Work, items: seq<Item>, c: Work, w': World, p: string)
    requires Begins(w, services, c0) && Runs(c0, services, w, items, c, w') && p in c0.groups
    ensures RemovesInUse(w, c, p) <==>
            SomeOther(items, p, c0.groups[p].LatestVersion().externalId) &&
            LastIs(items, p, c0.groups[p].LatestVersion().externalId) && OffParent(w, p, c0.groups[p].id)
  {
    hide *;
    RunsFit(w, services, c0, items, c, w');
    ItemsDecide(w, services, c0, items, c, w', p);
    forall s, k | s in w.services && 0 <= k < |w.services[s].refs|
      ensures Condemned(w, c, p, After(c.queue, s, w.services[s].refs)[k].secretId) <==>
              EndsKept(c, p) && RotationQueued(c, p) && InGroup(w, p, w.services[s].refs[k].secretId) &&
              w.services[s].refs[k].secretId != c0.groups[p].id
    {
      ReferenceFate(w, services, c0.groups, c, w', p, s, k);
    }
    RemovesExact(w, c, p, c0.groups[p].id);
  }

  lemma RemovesExact(w: World, c: Work, p: string, parent: SecretId)
    requires forall s, k :: s in w.services && 0 <= k < |w.services[s].refs| ==>
               (Condemned(w, c, p, After(c.queue, s, w.services[s].refs)[k].secretId) <==>
                EndsKept(c, p) && RotationQueued(c, p) && InGroup(w, p, w.services[s].refs[k].secretId) &&
                w.services[s].refs[k].secretId != parent)
    ensures RemovesInUse(w, c, p) <==> EndsKept(c, p) && RotationQueued(c, p) && OffParent(w, p, parent)
  {
  }

  // ---------------------------------------------------------------- paths that share a missing name

  ghost predicate HasItem(items: seq<Item>, p: string) {
    exists k :: 0 <= k < |items| && items[k].path == p
  }

  lemma HasItemMore(items: seq<Item>, n: nat, p: string)
    requires n + 1 == |items|
    ensures HasItem(items, p) <==> HasItem(items[..n], p) || items[n].path == p
  {
  }

  lemma MissingStep(c: Work, services: seq<LoadedService>, w: World, item: Item, c': Work, w': World, p: string)
    requires Processed(c, services, w, item.path, item.wanted, c', w') && p !in c.groups && InPast(w)
    ensures InPast(w') && p !in c'.groups && (NameTaken(w, p) ==> NameTaken(w', p) && item.path != p)
    ensures item.path == p ==> NameTaken(w', p)
  {
    hide QueueServices;
    if item.path !in c.groups {
      assert w'.secrets[NextId(w)].name == item.path;
    }
    if NameTaken(w, p) {
      var i :| i in w.secrets && w.secrets[i].name == p;
      assert i != NextId(w) ==> w'.secrets[i] == w.secrets[i];
    }
  }

  // Paths that share a name no group has yet: once one of them is processed, all others are refused, so that no run
  // gets through with two.
  lemma {:induction false} MissingCollisionBlocked(
    c0: Work, services: seq<LoadedService>, w0: World, items: seq<Item>, c: Work, w: World, p: string)
    requires Runs(c0, services, w0, items, c, w) && p !in c0.groups && InPast(w0)
    ensures p !in c.groups && InPast(w)
    ensures forall j, k :: 0 <= j < k < |items| ==> items[j].path != p || items[k].path != p
    ensures HasItem(items, p) ==> forall wanted :: NameBlocked(c, w, p, wanted)
    decreases |items|
  {
    hide Processed, InPast, HasItem;
    if items == [] {
      NoItem(p);
    } else {
      var n := |items| - 1;
      var c1, w1 :| Runs(c0, services, w0, items[..n], c1, w1) &&
                    Processed(c1, services, w1, items[n].path, items[n].wanted, c, w);
      MissingCollisionBlocked(c0, services, w0, items[..n], c1, w1, p);
      MissingStep(c1, services, w1, items[n], c, w, p);
      HasItemMore(items, n, p);
      hide Runs;
      forall j, k | 0 <= j < k < |items| ensures items[j].path != p || items[k].path != p {
        if k == n {
          if items[j].path == p {
            ItemIn(items[..n], j, p);
            assert NameBlocked(c1, w1, p, items[n].wanted);
          }
        } else {
          assert items[..n][j] == items[j] && items[..n][k] == items[k];
        }
      }
      assert HasItem(items[..n], p) ==> NameBlocked(c1, w1, p, items[n].wanted);
    }
  }

  lemma NoItem(p: string)
    ensures !HasItem([], p)
  {
  }

  lemma ItemIn(items: seq<Item>, k: nat, p: string)
    requires k < |items| && items[k].path == p
    ensures HasItem(items, p)
  {
  }
}
