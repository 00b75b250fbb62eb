// Listing all keys of a Vault mount (internal/providers/vault/provider.go).
module VaultListing {
  import opened Wrappers
  import opened Strings
  import opened VaultPaths

  datatype Document = Document(versionId: string, data: map<string, string>)

  // The mount as the API shows it: the names below each path, a folder's name ending in a slash, and the documents.
  datatype Vault = Vault(entries: map<string, seq<string>>, documents: map<string, Document>)

  datatype Secret = Secret(path: string, versionId: string)

  datatype Error = CallFailed | NoDocument | EmptyKey | SlashInKey

  // What is below a path; nothing below an unknown one.
  function Names(v: Vault, path: string): seq<string> {
    if TrimSlash(path) in v.entries then v.entries[TrimSlash(path)] else []
  }

  predicate IsFolder(name: string) {
    name != "" && name[|name| - 1] == '/'
  }

  // The path of an entry, for a folder without its trailing slash.
  function PathOf(path: string, name: string): string {
    JoinPath(path, if IsFolder(name) then name[..|name| - 1] else name)
  }

  ghost predicate FolderAmong(path: string, names: seq<string>, child: string) {
    exists k :: 0 <= k < |names| && IsFolder(names[k]) && child == PathOf(path, names[k])
  }

  ghost predicate DocumentAmong(path: string, names: seq<string>, doc: string) {
    exists k :: 0 <= k < |names| && !IsFolder(names[k]) && doc == PathOf(path, names[k])
  }

  ghost predicate FolderIn(v: Vault, path: string, child: string) {
    FolderAmong(path, Names(v, path), child)
  }

  ghost predicate DocumentIn(v: Vault, path: string, doc: string) {
    DocumentAmong(path, Names(v, path), doc)
  }

  ghost predicate RouteStep(v: Vault, route: seq<string>, k: nat)
    requires k + 1 < |route|
  {
    FolderIn(v, route[k], route[k + 1])
  }

  // A way down from the root of the mount.
  ghost predicate Route(v: Vault, route: seq<string>) {
    |route| > 0 && route[0] == "" && forall k: nat :: k + 1 < |route| ==> RouteStep(v, route, k)
  }

  ghost predicate Reachable(v: Vault, path: string) {
    exists route :: Route(v, route) && route[|route| - 1] == path
  }

  // The documents that a listing has to visit.
  ghost predicate Listed(v: Vault, doc: string) {
    exists path :: Reachable(v, path) && DocumentIn(v, path, doc)
  }

  ghost predicate IsEntry(v: Vault, doc: string, key: string, path: string) {
    doc in v.documents && key in v.documents[doc].data && path == JoinPath(doc, key)
  }

  ghost predicate Usable(v: Vault, doc: string) {
    doc in v.documents && Bare(doc, SLASH) && forall key :: key in v.documents[doc].data ==> KeyAllowed(key)
  }

  // Why a document cannot be listed.
  ghost predicate Blames(v: Vault, doc: string, error: Error) {
    match error
    case CallFailed => false
    case NoDocument => doc !in v.documents
    case EmptyKey => doc in v.documents && "" in v.documents[doc].data
    case SlashInKey => doc in v.documents && exists key :: key in v.documents[doc].data && '/' in key
  }

  // The secrets are those of the given documents.
  ghost predicate SecretsOf(v: Vault, docs: iset<string>, secrets: map<string, Secret>) {
    && (forall doc :: doc in docs ==> Usable(v, doc))
    && (forall doc, key, path :: doc in docs && IsEntry(v, doc, key, path) ==>
          path in secrets && secrets[path] == Secret(path, v.documents[doc].versionId))
    && (forall path :: path in secrets ==> exists doc, key :: doc in docs && IsEntry(v, doc, key, path))
  }

  class Client {
    const vault: Vault
    ghost var faults: nat

    constructor (vault: Vault)
      ensures this.vault == vault && faults == 0
    {
      this.vault, faults := vault, 0;
    }

    method ListKeys(path: string) returns (names: Option<seq<string>>)
      modifies this
      ensures names.Some? ==> names.value == Names(vault, path) && faults == old(faults)
      ensures names.None? ==> faults > old(faults)
    {
      if * {
        faults := faults + 1;
        return None;
      }
      names := Some(Names(vault, path));
    }

    // The keys come in some order, each once.
    method GetSecret(path: string) returns (r: Result<(string, seq<string>), Error>)
      modifies this
      ensures r.Ok? ==>
                TrimSlash(path) in vault.documents && faults == old(faults) &&
                r.value.0 == vault.documents[TrimSlash(path)].versionId &&
                forall key :: key in r.value.1 <==> key in vault.documents[TrimSlash(path)].data
      ensures r == Err(CallFailed) ==> faults > old(faults)
      ensures r == Err(NoDocument) ==> TrimSlash(path) !in vault.documents && faults == old(faults)
      ensures r.Err? ==> r.error in {CallFailed, NoDocument}
    {
      if * {
        faults := faults + 1;
        return Err(CallFailed);
      }
      var p := TrimSlash(path);
      if p !in vault.documents {
        return Err(NoDocument);
      }
      var keys := Keys(vault.documents[p].data);
      return Ok((vault.documents[p].versionId, keys));
    }

    method GetValue(path: string, key: string) returns (r: Option<string>)
      modifies this
      ensures r.Some? ==>
                TrimSlash(path) in vault.documents && key in vault.documents[TrimSlash(path)].data &&
                r.value == vault.documents[TrimSlash(path)].data[key]
      ensures r.None? ==>
                faults > old(faults) || TrimSlash(path) !in vault.documents ||
                key !in vault.documents[TrimSlash(path)].data
    {
      var p := TrimSlash(path);
      if * {
        faults := faults + 1;
        return None;
      }
      var found := p in vault.documents && key in vault.documents[p].data;
      return if found then Some(vault.documents[p].data[key]) else None;
    }
  }

  method Keys(data: map<string, string>) returns (keys: seq<string>)
    ensures forall key :: key in keys <==> key in data
  {
    keys := [];
    var rest := data.Keys;
    while rest != {}
      invariant rest <= data.Keys
      invariant forall key :: key in keys <==> key in data && key !in rest
      decreases |rest|
    {
      assert exists key :: key in rest;
      var key :| key in rest;
      keys, rest := keys + [key], rest - {key};
    }
  }

  // ---------------------------------------------------------------- one document

  // The secrets of the documents before, and those of this one for the keys so far.
  ghost predicate Adding(
    v: Vault, before: map<string, Secret>, doc: string, keys: seq<string>, n: nat, secrets: map<string, Secret>)
    requires n <= |keys|
  {
    && doc in v.documents
    && (forall path :: path in before && (forall k :: 0 <= k < n ==> path != JoinPath(doc, keys[k])) ==>
          path in secrets && secrets[path] == before[path])
    && (forall k :: 0 <= k < n ==>
          KeyAllowed(keys[k]) && JoinPath(doc, keys[k]) in secrets &&
          secrets[JoinPath(doc, keys[k])] == Secret(JoinPath(doc, keys[k]), v.documents[doc].versionId))
    && (forall path :: path in secrets ==> path in before || exists k :: 0 <= k < n && path == JoinPath(doc, keys[k]))
  }

  lemma AddingStep(
    v: Vault, before: map<string, Secret>, doc: string, keys: seq<string>, n: nat, secrets: map<string, Secret>)
    requires n < |keys| && Adding(v, before, doc, keys, n, secrets) && Bare(doc, SLASH) && KeyAllowed(keys[n])
    ensures doc in v.documents
    ensures var path := JoinPath(doc, keys[n]);
            Adding(v, before, doc, keys, n + 1, secrets[path := Secret(path, v.documents[doc].versionId)])
  {
  }

  lemma AddingDone(
    v: Vault, docs: iset<string>, before: map<string, Secret>, doc: string, keys: seq<string>,
    secrets: map<string, Secret>)
    requires SecretsOf(v, docs, before) && Adding(v, before, doc, keys, |keys|, secrets) && Bare(doc, SLASH)
    requires forall key :: key in keys <==> key in v.documents[doc].data
    ensures SecretsOf(v, docs + iset{doc}, secrets)
  {
    assert Usable(v, doc) by {
      forall key | key in v.documents[doc].data ensures KeyAllowed(key) {
        assert key in keys;
      }
    }
    forall d, key, path | d in docs + iset{doc} && IsEntry(v, d, key, path)
      ensures path in secrets && secrets[path] == Secret(path, v.documents[d].versionId)
    {
      if d == doc {
        assert key in keys;
      } else {
        assert path in before && before[path] == Secret(path, v.documents[d].versionId);
        forall k | 0 <= k < |keys| ensures path != JoinPath(doc, keys[k]) {
          if path == JoinPath(doc, keys[k]) {
            JoinInjective(d, key, doc, keys[k]);
          }
        }
      }
    }
    forall path | path in secrets ensures exists d, key :: d in docs + iset{doc} && IsEntry(v, d, key, path) {
      if path in before {
        var d, key :| d in docs && IsEntry(v, d, key, path);
        assert d in docs + iset{doc};
      } else {
        var k :| 0 <= k < |keys| && path == JoinPath(doc, keys[k]);
        assert keys[k] in keys && IsEntry(v, doc, keys[k], path);
      }
    }
  }

  lemma AddingNone(v: Vault, before: map<string, Secret>, doc: string, keys: seq<string>)
    requires doc in v.documents
    ensures Adding(v, before, doc, keys, 0, before)
  {
  }

  // The innermost loop: one document's keys.
  method AddDocument(
    client: Client, fullPath: string, before: map<string, Secret>, ghost docs: iset<string>)
    returns (r: Result<map<string, Secret>, Error>)
    requires Bare(fullPath, SLASH) && SecretsOf(client.vault, docs, before)
    modifies client
    ensures r.Ok? ==> SecretsOf(client.vault, docs + iset{fullPath}, r.value) && client.faults == old(client.faults)
    ensures r == Err(CallFailed) ==> client.faults > old(client.faults)
    ensures r.Err? && r.error != CallFailed ==> Blames(client.vault, fullPath, r.error)
  {
    hide SecretsOf, Adding, Trim, JoinPath;
    TrimOf(fullPath);
    var secret := client.GetSecret(fullPath);
    if secret.Err? {
      return Err(secret.error);
    }
    var keys, secrets := secret.value.1, before;
    AddingNone(client.vault, before, fullPath, keys);
    for n := 0 to |keys|
      invariant Adding(client.vault, before, fullPath, keys, n, secrets) && client.faults == old(client.faults)
    {
      assert keys[n] in keys;
      if keys[n] == "" {
        return Err(EmptyKey);
      }
      if '/' in keys[n] {
        return Err(SlashInKey);
      }
      AddingStep(client.vault, before, fullPath, keys, n, secrets);
      var secretPath := JoinPath(fullPath, keys[n]);
      secrets := secrets[secretPath := Secret(secretPath, secret.value.0)];
    }
    AddingDone(client.vault, docs, before, fullPath, keys, secrets);
    return Ok(secrets);
  }

  lemma TrimOf(path: string)
    requires Bare(path, SLASH)
    ensures TrimSlash(path) == path
  {
  }

  // ---------------------------------------------------------------- one folder

  ghost function DocumentsAmong(path: string, names: seq<string>): iset<string> {
    iset doc | DocumentAmong(path, names, doc)
  }

  // A name more.
  lemma AmongMore(path: string, names: seq<string>, k: nat)
    requires k < |names|
    ensures forall child :: FolderAmong(path, names[..k + 1], child) <==>
                            FolderAmong(path, names[..k], child) ||
                            (IsFolder(names[k]) && child == PathOf(path, names[k]))
    ensures DocumentsAmong(path, names[..k + 1]) ==
            DocumentsAmong(path, names[..k]) + if IsFolder(names[k]) then iset{} else iset{PathOf(path, names[k])}
  {
    hide PathOf, IsFolder;
    var less, more := names[..k], names[..k + 1];
    assert more[k] == names[k] && forall j :: 0 <= j < k ==> more[j] == less[j];
    forall child
      ensures FolderAmong(path, more, child) <==>
              FolderAmong(path, less, child) || (IsFolder(names[k]) && child == PathOf(path, names[k]))
    {
      if FolderAmong(path, less, child) {
        var j :| 0 <= j < k && IsFolder(less[j]) && child == PathOf(path, less[j]);
        assert IsFolder(more[j]);
      }
    }
    forall doc
      ensures DocumentAmong(path, more, doc) <==>
              DocumentAmong(path, less, doc) || (!IsFolder(names[k]) && doc == PathOf(path, names[k]))
    {
      if DocumentAmong(path, less, doc) {
        var j :| 0 <= j < k && !IsFolder(less[j]) && doc == PathOf(path, less[j]);
        assert !IsFolder(more[j]);
      }
    }
  }

  lemma AmongNone(path: string)
    ensures forall child :: !FolderAmong(path, [], child)
    ensures DocumentsAmong(path, []) == iset{}
  {
  }

  lemma BadDocument(path: string, names: seq<string>, k: nat, v: Vault, error: Error)
    requires k < |names| && !IsFolder(names[k]) && Blames(v, PathOf(path, names[k]), error)
    ensures exists doc :: DocumentAmong(path, names, doc) && Blames(v, doc, error)
  {
  }

  // The middle loop: the names in one folder.
  method ScanFolder(
    client: Client, path: string, names: seq<string>, waiting: seq<string>, before: map<string, Secret>,
    ghost docs: iset<string>)
    returns (r: Result<map<string, Secret>, Error>, pathsToScan: seq<string>)
    requires SecretsOf(client.vault, docs, before)
    modifies client
    ensures r.Ok? ==>
              SecretsOf(client.vault, docs + DocumentsAmong(path, names), r.value) &&
              client.faults == old(client.faults)
    ensures r.Ok? ==> forall child :: child in pathsToScan <==> child in waiting || FolderAmong(path, names, child)
    ensures names == [] ==> pathsToScan == waiting
    ensures r == Err(CallFailed) ==> client.faults > old(client.faults)
    ensures r.Err? && r.error != CallFailed ==>
              exists doc :: DocumentAmong(path, names, doc) && Blames(client.vault, doc, r.error)
  {
    hide *;
    pathsToScan := waiting;
    var secrets := before;
    ghost var all := docs;
    AmongNone(path);
    assert names[..0] == [] && docs + iset{} == docs;
    for k := 0 to |names|
      invariant all == docs + DocumentsAmong(path, names[..k]) && SecretsOf(client.vault, all, secrets)
      invariant forall child :: child in pathsToScan <==> child in waiting || FolderAmong(path, names[..k], child)
      invariant client.faults == old(client.faults)
      invariant k == 0 ==> pathsToScan == waiting
    {
      AmongMore(path, names, k);
      var fullPath := PathOf(path, names[k]);
      if IsFolder(names[k]) {
        pathsToScan := pathsToScan + [fullPath];
        continue;
      }
      PathBare(path, names[k]);
      var added := AddDocument(client, fullPath, secrets, all);
      if added.Err? {
        if added.error != CallFailed {
          BadDocument(path, names, k, client.vault, added.error);
        }
        return Err(added.error), pathsToScan;
      }
      secrets, all := added.value, all + iset{fullPath};
    }
    assert names[..|names|] == names;
    return Ok(secrets), pathsToScan;
  }

  lemma PathBare(path: string, name: string)
    ensures Bare(PathOf(path, name), SLASH)
  {
    JoinBare(path, if IsFolder(name) then name[..|name| - 1] else name);
  }

  // ---------------------------------------------------------------- the worklist

  // Waiting and seen paths are reachable, the root is among them, and so are the folders below every seen one.
  ghost predicate Frontier(v: Vault, waiting: seq<string>, seen: set<string>) {
    && (forall path :: path in waiting || path in seen ==> Reachable(v, path) && Bare(path, SLASH))
    && ("" in waiting || "" in seen)
    && (forall path, child :: path in seen && FolderIn(v, path, child) ==> child in waiting || child in seen)
  }

  ghost predicate DocumentSeen(v: Vault, seen: set<string>, doc: string) {
    exists path :: path in seen && DocumentIn(v, path, doc)
  }

  ghost function DocumentsSeen(v: Vault, seen: set<string>): iset<string> {
    iset doc | DocumentSeen(v, seen, doc)
  }

  ghost function ListedDocuments(v: Vault): iset<string> {
    iset doc | Listed(v, doc)
  }

  lemma FrontierStart(v: Vault)
    ensures Frontier(v, [""], {}) && DocumentsSeen(v, {}) == iset{}
  {
  }

  lemma FolderReachable(v: Vault, path: string, child: string)
    requires Reachable(v, path) && FolderIn(v, path, child)
    ensures Reachable(v, child) && Bare(child, SLASH)
  {
    var route :| Route(v, route) && route[|route| - 1] == path;
    var longer := route + [child];
    forall k: nat | k + 1 < |longer| ensures RouteStep(v, longer, k) {
      assert k + 1 < |route| ==> RouteStep(v, route, k);
    }
    assert Route(v, longer) && longer[|longer| - 1] == child;
    var names := Names(v, path);
    var k :| 0 <= k < |names| && IsFolder(names[k]) && child == PathOf(path, names[k]);
    PathBare(path, names[k]);
  }

  lemma FrontierSkip(v: Vault, waiting: seq<string>, seen: set<string>)
    requires Frontier(v, waiting, seen) && waiting != [] && waiting[0] in seen
    ensures Frontier(v, waiting[1..], seen)
  {
  }

  lemma FrontierScan(v: Vault, waiting: seq<string>, seen: set<string>, waiting': seq<string>)
    requires Frontier(v, waiting, seen) && waiting != []
    requires forall child :: child in waiting' <==>
                             child in waiting[1..] || FolderAmong(waiting[0], Names(v, waiting[0]), child)
    ensures Frontier(v, waiting', seen + {waiting[0]})
    ensures DocumentsSeen(v, seen + {waiting[0]}) ==
            DocumentsSeen(v, seen) + DocumentsAmong(waiting[0], Names(v, waiting[0]))
  {
    hide Reachable, FolderAmong, DocumentAmong;
    var path := waiting[0];
    assert forall p :: p in waiting <==> p == path || p in waiting[1..];
    forall p | p in waiting' || p in seen + {path} ensures Reachable(v, p) && Bare(p, SLASH) {
      if p !in waiting && p !in seen {
        assert FolderIn(v, path, p);
        FolderReachable(v, path, p);
      }
    }
    forall doc
      ensures DocumentSeen(v, seen + {path}, doc) <==>
              DocumentSeen(v, seen, doc) || DocumentAmong(path, Names(v, path), doc)
    {
      if DocumentAmong(path, Names(v, path), doc) {
        assert path in seen + {path} && DocumentIn(v, path, doc);
      }
      if DocumentSeen(v, seen, doc) {
        var p :| p in seen && DocumentIn(v, p, doc);
        assert p in seen + {path};
      }
    }
  }

  // With nothing waiting, every way down stays in the seen paths.
  lemma {:induction false} RouteSeen(v: Vault, seen: set<string>, route: seq<string>, n: nat)
    requires Frontier(v, [], seen) && Route(v, route) && n < |route|
    ensures route[n] in seen
  {
    if n > 0 {
      RouteSeen(v, seen, route, n - 1);
      assert RouteStep(v, route, n - 1);
    }
  }

  lemma AllSeen(v: Vault, seen: set<string>)
    requires Frontier(v, [], seen)
    ensures DocumentsSeen(v, seen) == ListedDocuments(v)
  {
    hide DocumentIn;
    forall doc ensures DocumentSeen(v, seen, doc) <==> Listed(v, doc) {
      if Listed(v, doc) {
        var path :| Reachable(v, path) && DocumentIn(v, path, doc);
        var route :| Route(v, route) && route[|route| - 1] == path;
        RouteSeen(v, seen, route, |route| - 1);
      }
    }
  }

  lemma SeenListed(v: Vault, path: string, doc: string)
    requires Reachable(v, path) && DocumentAmong(path, Names(v, path), doc)
    ensures Listed(v, doc)
  {
  }

  lemma UnknownEmpty(v: Vault, path: string)
    requires Bare(path, SLASH)
    ensures path !in v.entries ==> Names(v, path) == []
  {
  }

  lemma FrontierAt(v: Vault, waiting: seq<string>, seen: set<string>)
    requires Frontier(v, waiting, seen) && waiting != []
    ensures Reachable(v, waiting[0]) && Bare(waiting[0], SLASH)
  {
  }

  // The listing holds exactly one secret for every key of every document that can be reached from the root, with
  // the version of its document. It fails only when a call failed or some such document cannot be listed.
  method ListSecrets(client: Client) returns (r: Result<map<string, Secret>, Error>)
    modifies client
    ensures r.Ok? ==>
              SecretsOf(client.vault, ListedDocuments(client.vault), r.value) && client.faults == old(client.faults)
    ensures r == Err(CallFailed) ==> client.faults > old(client.faults)
    ensures r.Err? && r.error != CallFailed ==>
              exists doc :: Listed(client.vault, doc) && Blames(client.vault, doc, r.error)
  {
    hide *;
    var v := client.vault;
    var secrets: map<string, Secret> := map[];
    var pathsToScan, seenPaths := [""], {};
    FrontierStart(v);
    NoSecrets(v);
    while |pathsToScan| > 0
      invariant Frontier(v, pathsToScan, seenPaths)
      invariant SecretsOf(v, DocumentsSeen(v, seenPaths), secrets)
      invariant client.faults == old(client.faults)
      decreases |v.entries.Keys - seenPaths|, |pathsToScan|
    {
      var path := pathsToScan[0];
      FrontierAt(v, pathsToScan, seenPaths);
      if path in seenPaths {
        FrontierSkip(v, pathsToScan, seenPaths);
        pathsToScan := pathsToScan[1..];
        continue;
      }
      var names := client.ListKeys(path);
      if names.None? {
        return Err(CallFailed);
      }
      UnknownEmpty(v, path);
      Fewer(v.entries.Keys, seenPaths, path);
      var scanned, waiting;
      scanned, waiting := ScanFolder(client, path, names.value, pathsToScan[1..], secrets, DocumentsSeen(v, seenPaths));
      if scanned.Err? {
        if scanned.error != CallFailed {
          ghost var doc :| DocumentAmong(path, Names(v, path), doc) && Blames(v, doc, scanned.error);
          SeenListed(v, path, doc);
        }
        return scanned;
      }
      FrontierScan(v, pathsToScan, seenPaths, waiting);
      secrets, pathsToScan, seenPaths := scanned.value, waiting, seenPaths + {path};
    }
    AllSeen(v, seenPaths);
    return Ok(secrets);
  }

  lemma NoSecrets(v: Vault)
    ensures SecretsOf(v, iset{}, map[])
  {
  }

  lemma Fewer(all: set<string>, seen: set<string>, path: string)
    requires path !in seen
    ensures path in all ==> |all - (seen + {path})| < |all - seen|
    ensures path !in all ==> all - (seen + {path}) == all - seen
  {
    if path in all {
      assert all - seen == (all - (seen + {path})) + {path};
    } else {
      assert all - (seen + {path}) == all - seen;
    }
  }

  // ---------------------------------------------------------------- reading what is listed

  method GetSecretPayload(client: Client, path: string) returns (r: Option<string>)
    modifies client
    ensures forall doc, key :: Usable(client.vault, doc) && doc != "" && IsEntry(client.vault, doc, key, path) ==>
              if r.Some? then r.value == client.vault.documents[doc].data[key] else client.faults > old(client.faults)
    ensures r.Some? ==>
              ParseSecretPath(path).Some? &&
              var s := ParseSecretPath(path).value;
              IsEntry(client.vault, TrimSlash(s.path), s.key, JoinPath(s.path, s.key))
  {
    hide JoinPath, ParseSecretPath, Trim;
    var s := ParseSecretPath(path);
    forall doc, key | Usable(client.vault, doc) && doc != "" && IsEntry(client.vault, doc, key, path)
      ensures s == Some(SecretPath(doc, key)) && TrimSlash(doc) == doc
    {
      TrimOf(doc);
      ParseJoin(doc, key);
    }
    if s.None? {
      return None;
    }
    JoinTrims(s.value.path, s.value.key);
    r := client.GetValue(s.value.path, s.value.key);
  }

  lemma JoinTrims(path: string, key: string)
    ensures JoinPath(TrimSlash(path), key) == JoinPath(path, key)
  {
    TrimIsBare(path, SLASH);
  }

  // A listed secret has one document and one key, and its path can be read back unless the document is the mount
  // itself.
  lemma ListedReadable(v: Vault, secrets: map<string, Secret>, path: string) returns (doc: string, key: string)
    requires SecretsOf(v, ListedDocuments(v), secrets) && path in secrets
    ensures Listed(v, doc) && IsEntry(v, doc, key, path) && secrets[path].versionId == v.documents[doc].versionId
    ensures forall d, k :: Listed(v, d) && IsEntry(v, d, k, path) ==> d == doc && k == key
    ensures ParseSecretPath(path) == Some(SecretPath(doc, key)) <==> doc != ""
  {
    hide Listed, JoinPath, ParseSecretPath;
    doc, key :| doc in ListedDocuments(v) && IsEntry(v, doc, key, path);
    forall d, k | Listed(v, d) && IsEntry(v, d, k, path) ensures d == doc && k == key {
      assert d in ListedDocuments(v);
      JoinInjective(d, k, doc, key);
    }
    ParseJoin(doc, key);
  }
}
