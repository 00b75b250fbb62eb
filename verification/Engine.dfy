// The grouping of Swarm secrets into logical secrets (internal/engine/docker.go).
module Engine {
  import opened Docker

  datatype Version = Version(id: SecretId, externalId: string, updatedAt: int)

  // The running maximum: a later entry replaces the current one only when it is strictly newer.
  function Scan(versions: seq<Version>): Version
    requires |versions| > 0
  {
    var last := versions[|versions| - 1];
    if |versions| == 1 then last
    else
      var latest := Scan(versions[..|versions| - 1]);
      if last.updatedAt > latest.updatedAt then last else latest
  }

  // The entry is newest, and the first such.
  ghost predicate FirstNewest(versions: seq<Version>, k: int) {
    0 <= k < |versions| &&
    (forall j :: 0 <= j < |versions| ==> versions[j].updatedAt <= versions[k].updatedAt) &&
    (forall j :: 0 <= j < k ==> versions[j].updatedAt < versions[k].updatedAt)
  }

  lemma FirstNewestMore(versions: seq<Version>, n: nat, k: int)
    requires n + 1 == |versions| && FirstNewest(versions[..n], k)
    ensures FirstNewest(versions, if versions[n].updatedAt > versions[k].updatedAt then n else k)
  {
  }

  // The scan finds the first of the newest entries.
  lemma {:induction false} ScanIsFirstNewest(versions: seq<Version>) returns (k: nat)
    requires |versions| > 0
    ensures FirstNewest(versions, k) && Scan(versions) == versions[k]
  {
    var n := |versions| - 1;
    if n == 0 {
      k := 0;
    } else {
      k := ScanIsFirstNewest(versions[..n]);
      FirstNewestMore(versions, n, k);
      if versions[n].updatedAt > versions[k].updatedAt {
        k := n;
      }
    }
  }

  // The value of an ExistingSecret.
  datatype GroupView = GroupView(
    id: SecretId,
    path: string,
    externalPath: string,
    managed: bool,
    versions: seq<Version>,
    latestVersion: Version)
  {
    // The cached version, or a scan when nothing was cached.
    function LatestVersion(): Version {
      if latestVersion.id == NO_ID && |versions| > 0 then Scan(versions) else latestVersion
    }
  }

  class ExistingSecret {
    const id: SecretId
    const path: string
    const externalPath: string
    var managed: bool
    var versions: seq<Version>
    var latestVersion: Version

    constructor (id: SecretId, path: string, externalPath: string, managed: bool, version: Version)
      ensures this.id == id && this.path == path && this.externalPath == externalPath
      ensures this.managed == managed && versions == [version] && latestVersion == version
    {
      this.id, this.path, this.externalPath := id, path, externalPath;
      this.managed, versions, latestVersion := managed, [version], version;
    }

    function View(): GroupView
      reads this
    {
      GroupView(id, path, externalPath, managed, versions, latestVersion)
    }

    method LatestVersion() returns (latest: Version)
      ensures latest == View().LatestVersion()
    {
      if latestVersion.id == NO_ID && |versions| > 0 {
        latest := versions[0];
        for k := 1 to |versions|
          invariant latest == Scan(versions[..k])
        {
          assert versions[..k + 1][..k] == versions[..k];
          if versions[k].updatedAt > latest.updatedAt {
            latest := versions[k];
          }
        }
        assert versions[..|versions|] == versions;
        return;
      }
      return latestVersion;
    }
  }

  function ToVersion(item: ListedSecret): Version {
    Version(item.id, item.secret.externalId, item.secret.updatedAt)
  }

  predicate IsParentItem(item: ListedSecret) {
    item.secret.logicalPath != "" && item.secret.logicalPath == item.secret.name
  }

  function ParentView(item: ListedSecret): GroupView {
    GroupView(item.id, item.secret.name, item.secret.externalPath, item.secret.managed, [ToVersion(item)],
              ToVersion(item))
  }

  // What the first pass has collected after the first `n` items.
  function Parents(items: seq<ListedSecret>, n: nat): map<string, GroupView>
    requires n <= |items|
  {
    if n == 0 then map[]
    else
      var item := items[n - 1];
      var before := Parents(items, n - 1);
      if IsParentItem(item) then before[item.secret.name := ParentView(item)] else before
  }

  function Append(view: GroupView, item: ListedSecret): GroupView {
    var version := ToVersion(item);
    view.(versions := view.versions + [version],
    managed := view.managed || item.secret.managed,
    latestVersion := if version.updatedAt > view.latestVersion.updatedAt then version else view.latestVersion)
  }

  // The second pass over one item: a version goes to its parent, if there is one.
  function WithVersion(groups: map<string, GroupView>, item: ListedSecret): map<string, GroupView> {
    var path := item.secret.logicalPath;
    if path == "" || path == item.secret.name || path !in groups then groups
    else groups[path := Append(groups[path], item)]
  }

  // What the second pass has made of `groups` after the first `n` items.
  function WithVersions(groups: map<string, GroupView>, items: seq<ListedSecret>, n: nat): map<string, GroupView>
    requires n <= |items|
  {
    if n == 0 then groups else WithVersion(WithVersions(groups, items, n - 1), items[n - 1])
  }

  // The groups of a whole list.
  function Grouped(items: seq<ListedSecret>): map<string, GroupView> {
    WithVersions(Parents(items, |items|), items, |items|)
  }

  ghost predicate Shows(groups: map<string, ExistingSecret>, views: map<string, GroupView>)
    reads groups.Values
  {
    groups.Keys == views.Keys && forall p :: p in groups ==> groups[p].path == p && groups[p].View() == views[p]
  }

  method CollectParents(items: seq<ListedSecret>) returns (groups: map<string, ExistingSecret>)
    ensures Shows(groups, Parents(items, |items|))
    ensures forall p :: p in groups ==> fresh(groups[p])
  {
    groups := map[];
    for n := 0 to |items|
      invariant Shows(groups, Parents(items, n))
      invariant forall p :: p in groups ==> fresh(groups[p])
    {
      var item := items[n];
      var path := item.secret.logicalPath;
      if path == "" || path != item.secret.name {
        continue;
      }
      var g := new ExistingSecret(item.id, path, item.secret.externalPath, item.secret.managed, ToVersion(item));
      groups := groups[path := g];
    }
  }

  method CollectVersion(groups: map<string, ExistingSecret>, item: ListedSecret, ghost views: map<string, GroupView>)
    requires Shows(groups, views)
    modifies groups.Values
    ensures Shows(groups, WithVersion(views, item))
  {
    var path := item.secret.logicalPath;
    if path == "" || path == item.secret.name || path !in groups {
      return;
    }
    var parent := groups[path];
    var version := ToVersion(item);
    parent.versions := parent.versions + [version];
    parent.managed := parent.managed || item.secret.managed;
    if version.updatedAt > parent.latestVersion.updatedAt {
      parent.latestVersion := version;
    }
  }

  method MapSecrets(items: seq<ListedSecret>) returns (groups: map<string, ExistingSecret>)
    ensures Shows(groups, Grouped(items))
    ensures forall p :: p in groups ==> fresh(groups[p])
  {
    groups := CollectParents(items);
    ghost var parents := Parents(items, |items|);
    for n := 0 to |items|
      invariant Shows(groups, WithVersions(parents, items, n))
      invariant forall p :: p in groups ==> fresh(groups[p])
    {
      CollectVersion(groups, items[n], WithVersions(parents, items, n));
    }
  }
}
