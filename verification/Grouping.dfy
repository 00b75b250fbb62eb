// The grouping in Engine is exact: every labelled secret with a parent is in one group, and nothing else is.
module Grouping {
  import opened Docker
  import opened Engine
  import opened Rotation

  ghost predicate UniqueItems(items: seq<ListedSecret>) {
    forall j, k :: 0 <= j < k < |items| ==> items[j].id != items[k].id && items[j].secret.name != items[k].secret.name
  }

  predicate IsChildItem(item: ListedSecret, path: string) {
    item.secret.logicalPath == path && item.secret.name != path
  }

  // The versions of `path` among the first `n` items, in list order.
  function ChildrenOf(items: seq<ListedSecret>, n: nat, path: string): seq<Version>
    requires n <= |items|
  {
    if n == 0 then []
    else ChildrenOf(items, n - 1, path) + if IsChildItem(items[n - 1], path) then [ToVersion(items[n - 1])] else []
  }

  ghost predicate ChildManaged(items: seq<ListedSecret>, n: nat, path: string)
    requires n <= |items|
  {
    exists k :: 0 <= k < n && IsChildItem(items[k], path) && items[k].secret.managed
  }

  lemma {:induction false} ParentsExact(items: seq<ListedSecret>, n: nat)
    requires UniqueItems(items) && n <= |items|
    ensures forall k :: 0 <= k < n && IsParentItem(items[k]) ==>
              items[k].secret.name in Parents(items, n) &&
              Parents(items, n)[items[k].secret.name] == ParentView(items[k])
    ensures forall p :: p in Parents(items, n) ==>
              exists k :: 0 <= k < n && IsParentItem(items[k]) && items[k].secret.name == p
  {
    if n > 0 {
      ParentsExact(items, n - 1);
      forall p | p in Parents(items, n)
        ensures exists k :: 0 <= k < n && IsParentItem(items[k]) && items[k].secret.name == p
      {
        if p !in Parents(items, n - 1) {
          assert IsParentItem(items[n - 1]) && items[n - 1].secret.name == p;
        }
      }
    }
  }

  ghost predicate Extended(before: GroupView, after: GroupView, items: seq<ListedSecret>, n: nat)
    requires n <= |items|
  {
    |before.versions| > 0 &&
    after.id == before.id && after.path == before.path && after.externalPath == before.externalPath &&
    after.versions == before.versions + ChildrenOf(items, n, before.path) &&
    after.managed == (before.managed || ChildManaged(items, n, before.path)) &&
    after.latestVersion == Scan(after.versions)
  }

  lemma {:induction false} ExtendOne(before: GroupView, middle: GroupView, items: seq<ListedSecret>, n: nat)
    requires 0 < n <= |items| && Extended(before, middle, items, n - 1)
    ensures var item := items[n - 1];
            Extended(before, if IsChildItem(item, before.path) then Append(middle, item) else middle, items, n)
  {
  }

  lemma {:induction false} WithVersionAt(groups: map<string, GroupView>, item: ListedSecret, p: string)
    requires p in groups && p != ""
    ensures WithVersion(groups, item).Keys == groups.Keys
    ensures WithVersion(groups, item)[p] == if IsChildItem(item, p) then Append(groups[p], item) else groups[p]
  {
  }

  lemma {:induction false} WithVersionsExact(groups: map<string, GroupView>, items: seq<ListedSecret>, n: nat)
    requires n <= |items|
    requires forall p :: p in groups ==> p != "" && groups[p].path == p && |groups[p].versions| > 0 &&
                                         groups[p].latestVersion == Scan(groups[p].versions)
    ensures WithVersions(groups, items, n).Keys == groups.Keys
    ensures forall p :: p in groups ==> Extended(groups[p], WithVersions(groups, items, n)[p], items, n)
  {
    if n > 0 {
      WithVersionsExact(groups, items, n - 1);
      var before := WithVersions(groups, items, n - 1);
      assert WithVersions(groups, items, n) == WithVersion(before, items[n - 1]);
      forall p | p in groups
        ensures p in WithVersion(before, items[n - 1])
        ensures Extended(groups[p], WithVersion(before, items[n - 1])[p], items, n)
      {
        WithVersionAt(before, items[n - 1], p);
        ExtendOne(groups[p], before[p], items, n);
      }
      assert WithVersion(before, items[n - 1]).Keys == groups.Keys;
    } else {
      forall p | p in groups ensures Extended(groups[p], groups[p], items, 0) {
        assert groups[p].versions + [] == groups[p].versions;
      }
    }
  }

  lemma {:induction false} ChildrenContent(items: seq<ListedSecret>, n: nat, p: string)
    requires UniqueItems(items) && n <= |items|
    ensures forall k :: 0 <= k < n && IsChildItem(items[k], p) ==> ToVersion(items[k]) in ChildrenOf(items, n, p)
    ensures forall c :: c in ChildrenOf(items, n, p) ==>
              exists k :: 0 <= k < n && IsChildItem(items[k], p) && ToVersion(items[k]) == c
    ensures DistinctIds(ChildrenOf(items, n, p))
  {
    if n > 0 {
      ChildrenContent(items, n - 1, p);
      var cs, ds := ChildrenOf(items, n, p), ChildrenOf(items, n - 1, p);
      var item := items[n - 1];
      if IsChildItem(item, p) {
        assert cs[|ds|] == ToVersion(item);
        forall c | c in cs ensures c in ds || c == ToVersion(item) {
        }
        forall a | 0 <= a < |ds| ensures cs[a] == ds[a] && cs[a].id != item.id {
          assert ds[a] in ds;
          var k :| 0 <= k < n - 1 && IsChildItem(items[k], p) && ToVersion(items[k]) == ds[a];
        }
      }
    }
  }

  ghost predicate DistinctIds(versions: seq<Version>) {
    forall j, k :: 0 <= j < k < |versions| ==> versions[j].id != versions[k].id
  }

  // The grouping of any list with unique ids and names: one group for each labelled parent, holding the parent
  // and then exactly its versions in list order; `managed` is the disjunction over the group, and the cached
  // latest version is the linear scan of the group.
  lemma {:induction false} MapSecretsExact(items: seq<ListedSecret>)
    requires UniqueItems(items)
    ensures var groups := Grouped(items);
            (forall p :: p in groups <==>
               exists k :: 0 <= k < |items| && IsParentItem(items[k]) && items[k].secret.name == p) &&
            forall k :: 0 <= k < |items| && IsParentItem(items[k]) ==>
              var p := items[k].secret.name;
              p in groups && groups[p].id == items[k].id && groups[p].path == p &&
              groups[p].externalPath == items[k].secret.externalPath &&
              groups[p].versions == [ToVersion(items[k])] + ChildrenOf(items, |items|, p) &&
              groups[p].managed == (items[k].secret.managed || ChildManaged(items, |items|, p)) &&
              groups[p].latestVersion == Scan(groups[p].versions)
  {
    ParentsExact(items, |items|);
    var parents := Parents(items, |items|);
    forall p | p in parents
      ensures p != "" && parents[p].path == p && |parents[p].versions| > 0 &&
              parents[p].latestVersion == Scan(parents[p].versions)
    {
      var k :| 0 <= k < |items| && IsParentItem(items[k]) && items[k].secret.name == p;
      assert parents[items[k].secret.name] == ParentView(items[k]);
    }
    WithVersionsExact(parents, items, |items|);
  }

  // ---------------------------------------------------------------- a group as a view of the state

  ghost predicate Mirrors(g: GroupView, w: World, p: string) {
    IsParent(w, p, g.id) && g.path == p && g.externalPath == w.secrets[g.id].externalPath &&
    (forall k :: 0 <= k < |g.versions| ==> VersionMirrors(w, p, g.versions[k])) &&
    DistinctIds(g.versions) &&
    (forall i :: InGroup(w, p, i) ==> HasVersion(g.versions, i)) &&
    g.latestVersion.id != NO_ID && IsLatest(w, p, g.latestVersion.id) &&
    g.latestVersion.externalId == w.secrets[g.latestVersion.id].externalId
  }

  ghost predicate MirrorsAll(groups: map<string, GroupView>, w: World) {
    (forall p :: p in groups <==> p != "" && Parented(w, p)) &&
    (forall p :: p in groups ==> Mirrors(groups[p], w, p) && groups[p].managed == Managed(w, p))
  }

  ghost predicate VersionMirrors(w: World, p: string, v: Version) {
    InGroup(w, p, v.id) && v.externalId == w.secrets[v.id].externalId && v.updatedAt == w.secrets[v.id].updatedAt
  }

  ghost predicate HasVersion(versions: seq<Version>, i: SecretId) {
    exists m :: 0 <= m < |versions| && versions[m].id == i
  }

  lemma {:induction false} ChildrenMirror(items: seq<ListedSecret>, w: World, p: string)
    requires ListsSecrets(items, w) && UniqueItems(items)
    ensures var children := ChildrenOf(items, |items|, p);
            DistinctIds(children) &&
            (forall m :: 0 <= m < |children| ==>
               VersionMirrors(w, p, children[m]) && w.secrets[children[m].id].name != p) &&
            forall i :: InGroup(w, p, i) && w.secrets[i].name != p ==> HasVersion(children, i)
  {
    var children := ChildrenOf(items, |items|, p);
    ChildrenContent(items, |items|, p);
    forall m | 0 <= m < |children|
      ensures VersionMirrors(w, p, children[m]) && w.secrets[children[m].id].name != p
    {
      assert children[m] in children;
      var j :| 0 <= j < |items| && IsChildItem(items[j], p) && ToVersion(items[j]) == children[m];
      assert w.secrets[items[j].id] == items[j].secret;
    }
    forall i | InGroup(w, p, i) && w.secrets[i].name != p ensures HasVersion(children, i) {
      var j :| 0 <= j < |items| && items[j].id == i;
      assert IsChildItem(items[j], p);
      var c :| 0 <= c < |children| && children[c] == ToVersion(items[j]);
      assert children[c].id == i;
    }
  }

  // The versions of a group are exactly the secrets of the group.
  lemma {:induction false} VersionsMirror(items: seq<ListedSecret>, w: World, k: nat, versions: seq<Version>)
    requires ListsSecrets(items, w) && UniqueItems(items) && NamesUnique(w)
    requires k < |items| && IsParentItem(items[k])
    requires versions == [ToVersion(items[k])] + ChildrenOf(items, |items|, items[k].secret.name)
    ensures DistinctIds(versions)
    ensures forall m :: 0 <= m < |versions| ==> VersionMirrors(w, items[k].secret.name, versions[m])
    ensures forall i :: InGroup(w, items[k].secret.name, i) ==> HasVersion(versions, i)
  {
    var p := items[k].secret.name;
    var children := ChildrenOf(items, |items|, p);
    ChildrenMirror(items, w, p);
    assert w.secrets[items[k].id] == items[k].secret;
    assert forall m :: 1 <= m < |versions| ==> versions[m] == children[m - 1];
    forall i | InGroup(w, p, i) ensures HasVersion(versions, i) {
      if w.secrets[i].name == p {
        assert versions[0].id == i;
      } else {
        var c :| 0 <= c < |children| && children[c].id == i;
        assert versions[c + 1].id == i;
      }
    }
  }

  lemma {:induction false} GroupMirrors(items: seq<ListedSecret>, w: World, g: GroupView, k: nat)
    requires WellFormed(w) && ListsSecrets(items, w) && UniqueItems(items)
    requires k < |items| && IsParentItem(items[k])
    requires g.id == items[k].id && g.path == items[k].secret.name && g.externalPath == items[k].secret.externalPath
    requires g.versions == [ToVersion(items[k])] + ChildrenOf(items, |items|, items[k].secret.name)
    requires g.latestVersion == Scan(g.versions)
    ensures Mirrors(g, w, items[k].secret.name)
  {
    var p := items[k].secret.name;
    VersionsMirror(items, w, k, g.versions);
    var best := ScanIsFirstNewest(g.versions);
    NewestMirrors(w, p, g.versions, best);
    assert w.secrets[items[k].id] == items[k].secret;
  }

  lemma NewestMirrors(w: World, p: string, versions: seq<Version>, k: int)
    requires FirstNewest(versions, k) && WellFormed(w)
    requires forall m :: 0 <= m < |versions| ==> VersionMirrors(w, p, versions[m])
    requires forall i :: InGroup(w, p, i) ==> HasVersion(versions, i)
    ensures versions[k].id != NO_ID && IsLatest(w, p, versions[k].id)
    ensures versions[k].externalId == w.secrets[versions[k].id].externalId
  {
  }

  lemma {:induction false} ManagedMirrors(items: seq<ListedSecret>, w: World, k: nat)
    requires ListsSecrets(items, w) && UniqueItems(items) && k < |items| && IsParentItem(items[k])
    ensures (items[k].secret.managed || ChildManaged(items, |items|, items[k].secret.name)) ==
            Managed(w, items[k].secret.name)
  {
  }

  // Whatever order Docker lists a well-formed state in, the groups show that state.
  lemma {:induction false} MapSecretsMirrors(items: seq<ListedSecret>, w: World)
    requires WellFormed(w) && ListsSecrets(items, w)
    ensures MirrorsAll(Grouped(items), w)
  {
    assert UniqueItems(items);
    MapSecretsExact(items);
    var groups := Grouped(items);
    forall p ensures p in groups <==> p != "" && Parented(w, p) {
      if p != "" && Parented(w, p) {
        var i := ParentOf(w, p);
        var k :| 0 <= k < |items| && items[k].id == i;
        assert IsParentItem(items[k]);
      }
      if p in groups {
        var k :| 0 <= k < |items| && IsParentItem(items[k]) && items[k].secret.name == p;
        assert IsParent(w, p, items[k].id);
      }
    }
    forall p | p in groups ensures Mirrors(groups[p], w, p) && groups[p].managed == Managed(w, p) {
      var k :| 0 <= k < |items| && IsParentItem(items[k]) && items[k].secret.name == p;
      GroupMirrors(items, w, groups[p], k);
      ManagedMirrors(items, w, k);
    }
  }

  lemma {:induction false} HasVersionExact(g: GroupView, w: World, p: string)
    requires Mirrors(g, w, p)
    ensures forall i :: HasVersion(g.versions, i) <==> InGroup(w, p, i)
  {
  }

  // Two views of one group agree in everything but the order of its secrets.
  ghost predicate SameButOrder(g: GroupView, g': GroupView) {
    g.(versions := []) == g'.(versions := []) && forall v :: v in g.versions <==> v in g'.versions
  }

  lemma {:induction false} MirrorsAgree(g: GroupView, g': GroupView, w: World, p: string)
    requires WellFormed(w) && Mirrors(g, w, p) && Mirrors(g', w, p) && g.managed == g'.managed
    requires g.latestVersion in g.versions && g'.latestVersion in g'.versions
    ensures SameButOrder(g, g')
  {
  }

  lemma {:induction false} CachedIsVersion(items: seq<ListedSecret>, p: string)
    requires UniqueItems(items) && p in Grouped(items)
    ensures Grouped(items)[p].latestVersion in Grouped(items)[p].versions
  {
    MapSecretsExact(items);
    var k :| 0 <= k < |items| && IsParentItem(items[k]) && items[k].secret.name == p;
    var j := ScanIsFirstNewest(Grouped(items)[p].versions);
  }

  lemma {:induction false} ShownAt(items: seq<ListedSecret>, w: World, p: string)
    requires WellFormed(w) && ListsSecrets(items, w)
    ensures p in Grouped(items) <==> p != "" && Parented(w, p)
    ensures p in Grouped(items) ==>
              var g := Grouped(items)[p];
              Mirrors(g, w, p) && g.managed == Managed(w, p) && g.latestVersion in g.versions
  {
    hide *;
    MapSecretsMirrors(items, w);
    ListedOnce(items, w);
    MirrorsAllAt(Grouped(items), w, p);
    if p in Grouped(items) {
      CachedIsVersion(items, p);
    }
  }

  lemma ListedOnce(items: seq<ListedSecret>, w: World)
    requires WellFormed(w) && ListsSecrets(items, w)
    ensures UniqueItems(items)
  {
  }

  lemma MirrorsAllAt(groups: map<string, GroupView>, w: World, p: string)
    requires MirrorsAll(groups, w)
    ensures p in groups <==> p != "" && Parented(w, p)
    ensures p in groups ==> Mirrors(groups[p], w, p) && groups[p].managed == Managed(w, p)
  {
  }

  // The result does not depend on the list order, except for the order inside a group.
  lemma {:induction false} MapSecretsOrderFree(items: seq<ListedSecret>, items': seq<ListedSecret>, w: World, p: string)
    requires WellFormed(w) && ListsSecrets(items, w) && ListsSecrets(items', w)
    ensures p in Grouped(items) <==> p in Grouped(items')
    ensures p in Grouped(items) ==> SameButOrder(Grouped(items)[p], Grouped(items')[p])
  {
    hide *;
    ShownAt(items, w, p);
    ShownAt(items', w, p);
    if p in Grouped(items) {
      MirrorsAgree(Grouped(items)[p], Grouped(items')[p], w, p);
    }
  }
}
