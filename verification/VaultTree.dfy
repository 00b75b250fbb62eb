// What the worklist of VaultListing visits, as a recursion over the tree of folders.
module VaultTree {
  import opened Strings
  import opened VaultListing

  // The name leads into another folder. One of slashes only leads back to the folder that it is in.
  predicate Enters(name: string)
    requires IsFolder(name)
  {
    TrimSlash(name[..|name| - 1]) != ""
  }

  ghost function Longest(paths: set<string>): (n: nat)
    ensures forall path :: path in paths ==> |path| <= n
  {
    if paths == {} then 0
    else
      var path :| path in paths;
      var rest := Longest(paths - {path});
      if |path| < rest then rest else |path|
  }

  lemma FolderLonger(path: string, name: string)
    requires Bare(path, SLASH) && IsFolder(name)
    ensures Bare(PathOf(path, name), SLASH)
    ensures if Enters(name) then |PathOf(path, name)| > |path| else PathOf(path, name) == path
  {
    TrimBare(path, SLASH);
    PathBare(path, name);
  }

  // The documents at and below a folder.
  ghost function Below(v: Vault, path: string): set<string>
    requires Bare(path, SLASH)
    decreases Longest(v.entries.Keys) - |path|, 1, 0
  {
    if path in v.entries then BelowNames(v, path, 0) else {}
  }

  ghost function BelowNames(v: Vault, path: string, k: nat): set<string>
    requires Bare(path, SLASH) && path in v.entries && k <= |v.entries[path]|
    decreases Longest(v.entries.Keys) - |path|, 0, |v.entries[path]| - k
  {
    if k == |v.entries[path]| then {}
    else
      var name := v.entries[path][k];
      PathBare(path, name);
      var here :=
        if IsFolder(name) then
          FolderLonger(path, name);
          if Enters(name) then Below(v, PathOf(path, name)) else {}
        else
          {PathOf(path, name)};
      here + BelowNames(v, path, k + 1)
  }

  lemma NamesAt(v: Vault, path: string)
    requires Bare(path, SLASH)
    ensures Names(v, path) == if path in v.entries then v.entries[path] else []
  {
  }

  // Only documents that can be reached are below a reachable folder.
  lemma {:induction false} BelowListed(v: Vault, path: string, doc: string)
    requires Bare(path, SLASH) && Reachable(v, path) && doc in Below(v, path)
    ensures Listed(v, doc)
    decreases Longest(v.entries.Keys) - |path|, 1, 0
  {
    hide Reachable, Listed, PathOf;
    BelowNamesListed(v, path, 0, doc);
  }

  lemma {:induction false} BelowNamesListed(v: Vault, path: string, k: nat, doc: string)
    requires Bare(path, SLASH) && path in v.entries && k <= |v.entries[path]|
    requires Reachable(v, path) && doc in BelowNames(v, path, k)
    ensures Listed(v, doc)
    decreases Longest(v.entries.Keys) - |path|, 0, |v.entries[path]| - k
  {
    hide Reachable, Listed, PathOf;
    NamesAt(v, path);
    var name := v.entries[path][k];
    PathBare(path, name);
    if doc in BelowNames(v, path, k + 1) {
      BelowNamesListed(v, path, k + 1, doc);
    } else if IsFolder(name) {
      FolderLonger(path, name);
      assert FolderIn(v, path, PathOf(path, name));
      FolderReachable(v, path, PathOf(path, name));
      BelowListed(v, PathOf(path, name), doc);
    } else {
      SeenListed(v, path, doc);
    }
  }

  // What a name contributes is below its folder.
  lemma {:induction false} NameBelow(v: Vault, path: string, k: nat, n: nat)
    requires Bare(path, SLASH) && path in v.entries && k <= n < |v.entries[path]|
    ensures Bare(PathOf(path, v.entries[path][n]), SLASH)
    ensures if IsFolder(v.entries[path][n]) then
              Enters(v.entries[path][n]) ==> Below(v, PathOf(path, v.entries[path][n])) <= BelowNames(v, path, k)
            else
              PathOf(path, v.entries[path][n]) in BelowNames(v, path, k)
    decreases n - k
  {
    hide PathOf;
    PathBare(path, v.entries[path][n]);
    if k < n {
      NameBelow(v, path, k + 1, n);
    }
  }

  lemma FolderBelow(v: Vault, path: string, child: string)
    requires Bare(path, SLASH) && FolderIn(v, path, child)
    ensures Bare(child, SLASH) && Below(v, child) <= Below(v, path)
  {
    hide PathOf;
    NamesAt(v, path);
    var names := Names(v, path);
    var n :| 0 <= n < |names| && IsFolder(names[n]) && child == PathOf(path, names[n]);
    FolderLonger(path, names[n]);
    NameBelow(v, path, 0, n);
  }

  lemma DocumentBelow(v: Vault, path: string, doc: string)
    requires Bare(path, SLASH) && DocumentIn(v, path, doc)
    ensures doc in Below(v, path)
  {
    hide PathOf;
    NamesAt(v, path);
    var names := Names(v, path);
    var n :| 0 <= n < |names| && !IsFolder(names[n]) && doc == PathOf(path, names[n]);
    NameBelow(v, path, 0, n);
  }

  lemma {:induction false} RouteBelow(v: Vault, route: seq<string>, n: nat)
    requires Route(v, route) && n < |route|
    ensures Bare(route[n], SLASH) && Below(v, route[n]) <= Below(v, "")
  {
    hide FolderIn;
    if n > 0 {
      RouteBelow(v, route, n - 1);
      assert RouteStep(v, route, n - 1);
      FolderBelow(v, route[n - 1], route[n]);
    }
  }

  // The listing visits exactly the documents of the recursively defined tree.
  lemma BelowExact(v: Vault, doc: string)
    ensures Listed(v, doc) <==> doc in Below(v, "")
  {
    hide Below, DocumentIn;
    FrontierStart(v);
    FrontierAt(v, [""], {});
    if doc in Below(v, "") {
      BelowListed(v, "", doc);
    }
    if Listed(v, doc) {
      var path :| Reachable(v, path) && DocumentIn(v, path, doc);
      var route :| Route(v, route) && route[|route| - 1] == path;
      RouteBelow(v, route, |route| - 1);
      DocumentBelow(v, path, doc);
    }
  }
}
