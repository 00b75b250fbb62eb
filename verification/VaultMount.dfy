// A Vault mount that is given as a tree of folders and documents, and what listing it yields. Nothing here depends on
// how the listing tells folders from documents.
module VaultMount {
  import opened Strings
  import opened VaultPaths
  import opened VaultListing
  import opened VaultTree

  // A folder's contents, one after the other.
  datatype Tree =
    | Empty
    | WithDocument(name: string, document: Document, rest: Tree)
    | WithFolder(name: string, below: Tree, rest: Tree)

  function Under(path: string, name: string): string {
    if path == "" then name else path + "/" + name
  }

  function DocumentNames(t: Tree): set<string> {
    match t
    case Empty => {}
    case WithDocument(name, _, rest) => {name} + DocumentNames(rest)
    case WithFolder(_, _, rest) => DocumentNames(rest)
  }

  function FolderNames(t: Tree): set<string> {
    match t
    case Empty => {}
    case WithDocument(_, _, rest) => FolderNames(rest)
    case WithFolder(name, _, rest) => {name} + FolderNames(rest)
  }

  predicate GoodName(name: string) {
    name != "" && '/' !in name
  }

  // No two documents and no two folders of one folder have the same name; a document and a folder may.
  predicate WellNamed(t: Tree) {
    match t
    case Empty => true
    case WithDocument(name, _, rest) => GoodName(name) && name !in DocumentNames(rest) && WellNamed(rest)
    case WithFolder(name, below, rest) =>
      GoodName(name) && name !in FolderNames(rest) && WellNamed(below) && WellNamed(rest)
  }

  // ---------------------------------------------------------------- how the API shows a tree

  // The API shows a folder with a slash at its end.
  function ShownNames(t: Tree): seq<string> {
    match t
    case Empty => []
    case WithDocument(name, _, rest) => [name] + ShownNames(rest)
    case WithFolder(name, _, rest) => [name + "/"] + ShownNames(rest)
  }

  // The documents by their full paths.
  function DocumentsOf(t: Tree, path: string): map<string, Document> {
    match t
    case Empty => map[]
    case WithDocument(name, document, rest) => DocumentsOf(rest, path)[Under(path, name) := document]
    case WithFolder(name, below, rest) => DocumentsOf(rest, path) + DocumentsOf(below, Under(path, name))
  }

  // What is shown below each folder in the tree.
  function EntriesOf(t: Tree, path: string): map<string, seq<string>> {
    match t
    case Empty => map[]
    case WithDocument(_, _, rest) => EntriesOf(rest, path)
    case WithFolder(name, below, rest) =>
      EntriesOf(rest, path) + EntriesOf(below, Under(path, name))[Under(path, name) := ShownNames(below)]
  }

  function Mount(t: Tree): Vault {
    Vault(EntriesOf(t, "")["" := ShownNames(t)], DocumentsOf(t, ""))
  }

  // ---------------------------------------------------------------- the paths in a tree are different

  predicate InFolder(path: string, name: string, k: string) {
    Under(path, name) + "/" <= k
  }

  // The part before the first slash.
  function Head(s: string): string {
    if s == "" || s[0] == '/' then "" else [s[0]] + Head(s[1..])
  }

  lemma {:induction false} HeadIs(name: string, tail: string)
    requires '/' !in name && (tail == "" || tail[0] == '/')
    ensures Head(name + tail) == name
  {
    if name == "" {
      assert name + tail == tail;
    } else {
      assert (name + tail)[1..] == name[1..] + tail && name[0] in name;
      HeadIs(name[1..], tail);
    }
  }

  // The first name on the way from `path` to `k`.
  lemma {:induction false} FirstName(path: string, name: string, k: string)
    requires GoodName(name) && (k == Under(path, name) || InFolder(path, name, k))
    ensures (path == "" || |path| < |k|) && Head(if path == "" then k else k[|path| + 1..]) == name
  {
    var whole := Under(path, name);
    var tail := k[|whole|..];
    assert k == whole + tail && (tail == "" || tail[0] == '/') by {
      assert k != whole ==> (whole + "/")[|whole|] == k[|whole|];
    }
    HeadIs(name, tail);
    hide Head, Under;
    RestOf(path, name, tail, k);
  }

  lemma RestOf(path: string, name: string, tail: string, k: string)
    requires k == Under(path, name) + tail && name != ""
    ensures (path == "" || |path| < |k|) && (if path == "" then k else k[|path| + 1..]) == name + tail
  {
  }

  lemma {:induction false} SameName(path: string, n: string, m: string, k: string)
    requires GoodName(n) && GoodName(m)
    requires (k == Under(path, n) || InFolder(path, n, k)) && (k == Under(path, m) || InFolder(path, m, k))
    ensures n == m
  {
    FirstName(path, n, k);
    FirstName(path, m, k);
  }

  lemma {:induction false} InFolderMore(path: string, n: string, m: string, k: string)
    requires GoodName(n) && (k == Under(Under(path, n), m) || InFolder(Under(path, n), m, k))
    ensures InFolder(path, n, k)
  {
  }

  lemma {:induction false} DocumentPath(t: Tree, path: string, k: string) returns (n: string)
    requires WellNamed(t) && k in DocumentsOf(t, path)
    ensures GoodName(n)
    ensures (n in DocumentNames(t) && k == Under(path, n)) || (n in FolderNames(t) && InFolder(path, n, k))
  {
    match t
    case Empty => assert false;
    case WithDocument(name, document, rest) =>
      if k == Under(path, name) {
        n := name;
      } else {
        n := DocumentPath(rest, path, k);
      }
    case WithFolder(name, below, rest) =>
      if k in DocumentsOf(below, Under(path, name)) {
        var m := DocumentPath(below, Under(path, name), k);
        InFolderMore(path, name, m, k);
        n := name;
      } else {
        n := DocumentPath(rest, path, k);
      }
  }

  lemma {:induction false} EntryPath(t: Tree, path: string, k: string) returns (n: string)
    requires WellNamed(t) && k in EntriesOf(t, path)
    ensures GoodName(n) && n in FolderNames(t) && (k == Under(path, n) || InFolder(path, n, k))
  {
    match t
    case Empty => assert false;
    case WithDocument(_, _, rest) => n := EntryPath(rest, path, k);
    case WithFolder(name, below, rest) =>
      if k == Under(path, name) {
        n := name;
      } else if k in EntriesOf(below, Under(path, name)) {
        var m := EntryPath(below, Under(path, name), k);
        InFolderMore(path, name, m, k);
        n := name;
      } else {
        n := EntryPath(rest, path, k);
      }
  }

  // ---------------------------------------------------------------- the mount shows the tree

  ghost predicate Within<T>(m: map<string, T>, m': map<string, T>) {
    forall k :: k in m ==> k in m' && m'[k] == m[k]
  }

  // Everything in the tree is shown where it belongs.
  ghost predicate ShowsTree(v: Vault, t: Tree, path: string) {
    match t
    case Empty => true
    case WithDocument(name, document, rest) =>
      Under(path, name) in v.documents && v.documents[Under(path, name)] == document && ShowsTree(v, rest, path)
    case WithFolder(name, below, rest) =>
      Under(path, name) in v.entries && v.entries[Under(path, name)] == ShownNames(below) &&
      ShowsTree(v, below, Under(path, name)) && ShowsTree(v, rest, path)
  }

  lemma {:induction false} ShowsMore(v: Vault, v': Vault, t: Tree, path: string)
    requires ShowsTree(v, t, path) && Within(v.entries, v'.entries) && Within(v.documents, v'.documents)
    ensures ShowsTree(v', t, path)
  {
    match t
    case Empty =>
    case WithDocument(_, _, rest) => ShowsMore(v, v', rest, path);
    case WithFolder(name, below, rest) =>
      ShowsMore(v, v', below, Under(path, name));
      ShowsMore(v, v', rest, path);
  }

  lemma {:induction false} DocumentsApart(t: Tree, path: string, name: string, below: Tree)
    requires WellNamed(t) && WellNamed(below) && GoodName(name) && name !in FolderNames(t)
    ensures Within(DocumentsOf(t, path), DocumentsOf(t, path) + DocumentsOf(below, Under(path, name)))
  {
    forall k | k in DocumentsOf(t, path) ensures k !in DocumentsOf(below, Under(path, name)) {
      if k in DocumentsOf(below, Under(path, name)) {
        var m := DocumentPath(below, Under(path, name), k);
        InFolderMore(path, name, m, k);
        var n := DocumentPath(t, path, k);
        SameName(path, n, name, k);
        assert false;
      }
    }
  }

  lemma {:induction false} EntriesApart(t: Tree, path: string, name: string, below: Tree)
    requires WellNamed(t) && WellNamed(below) && GoodName(name) && name !in FolderNames(t)
    ensures Within(EntriesOf(t, path),
                   EntriesOf(t, path) + EntriesOf(below, Under(path, name))[Under(path, name) := ShownNames(below)])
  {
    forall k | k in EntriesOf(t, path) ensures k != Under(path, name) && k !in EntriesOf(below, Under(path, name)) {
      var n := EntryPath(t, path, k);
      if k == Under(path, name) {
        SameName(path, n, name, k);
      }
      if k in EntriesOf(below, Under(path, name)) {
        var m := EntryPath(below, Under(path, name), k);
        InFolderMore(path, name, m, k);
        SameName(path, n, name, k);
      }
    }
  }

  lemma {:induction false} OwnEntry(t: Tree, path: string, more: seq<string>)
    requires WellNamed(t)
    ensures Within(EntriesOf(t, path), EntriesOf(t, path)[path := more])
  {
    forall k | k in EntriesOf(t, path) ensures k != path {
      var n := EntryPath(t, path, k);
    }
  }

  lemma {:induction false} RendersTree(t: Tree, path: string)
    requires WellNamed(t)
    ensures ShowsTree(Vault(EntriesOf(t, path), DocumentsOf(t, path)), t, path)
  {
    hide Within, InFolder;
    var v := Vault(EntriesOf(t, path), DocumentsOf(t, path));
    match t
    case Empty =>
    case WithDocument(name, document, rest) =>
      RendersTree(rest, path);
      DocumentApart(rest, path, name, document);
      WithinSame(v.entries);
      ShowsMore(Vault(EntriesOf(rest, path), DocumentsOf(rest, path)), v, rest, path);
    case WithFolder(name, below, rest) =>
      var inner := Under(path, name);
      RendersTree(rest, path);
      RendersTree(below, inner);
      DocumentsApart(rest, path, name, below);
      EntriesApart(rest, path, name, below);
      ShowsMore(Vault(EntriesOf(rest, path), DocumentsOf(rest, path)), v, rest, path);
      OwnEntry(below, inner, ShownNames(below));
      WithinRight(DocumentsOf(rest, path), DocumentsOf(below, inner), DocumentsOf(below, inner));
      WithinRight(EntriesOf(rest, path), EntriesOf(below, inner), EntriesOf(below, inner)[inner := ShownNames(below)]);
      ShowsMore(Vault(EntriesOf(below, inner), DocumentsOf(below, inner)), v, below, inner);
  }

  lemma {:induction false} DocumentApart(t: Tree, path: string, name: string, document: Document)
    requires WellNamed(t) && GoodName(name) && name !in DocumentNames(t)
    ensures Within(DocumentsOf(t, path), DocumentsOf(t, path)[Under(path, name) := document])
  {
    forall k | k in DocumentsOf(t, path) ensures k != Under(path, name) {
      if k == Under(path, name) {
        var n := DocumentPath(t, path, k);
        SameName(path, n, name, k);
      }
    }
  }

  lemma WithinSame<T>(m: map<string, T>)
    ensures Within(m, m)
  {
  }

  lemma WithinRight<T>(a: map<string, T>, b: map<string, T>, b': map<string, T>)
    requires Within(b, b') || b == b'
    ensures Within(b, a + b')
  {
  }

  // ---------------------------------------------------------------- what is listed

  lemma NameRoles(path: string, name: string)
    requires Bare(path, SLASH) && GoodName(name)
    ensures !IsFolder(name) && IsFolder(name + "/") && Enters(name + "/")
    ensures PathOf(path, name) == PathOf(path, name + "/") == Under(path, name) && Bare(Under(path, name), SLASH)
  {
  }

  // The documents below a path are those of its tree; `t` is what is left of the folder from its `k`-th name on.
  lemma {:induction false} BelowTree(v: Vault, t: Tree, path: string, k: nat)
    requires WellNamed(t) && ShowsTree(v, t, path) && Bare(path, SLASH)
    requires path in v.entries && k <= |v.entries[path]| && v.entries[path][k..] == ShownNames(t)
    ensures BelowNames(v, path, k) == DocumentsOf(t, path).Keys
    decreases t
  {
    hide PathOf, IsFolder, Enters, Bare, Under;
    match t
    case Empty =>
    case WithDocument(name, _, rest) =>
      NameRoles(path, name);
      NextName(v, path, k, name, ShownNames(rest));
      BelowTree(v, rest, path, k + 1);
    case WithFolder(name, below, rest) =>
      NameRoles(path, name);
      NextName(v, path, k, name + "/", ShownNames(rest));
      BelowTree(v, rest, path, k + 1);
      BelowTree(v, below, Under(path, name), 0);
      assert Below(v, Under(path, name)) == DocumentsOf(below, Under(path, name)).Keys;
  }

  lemma NextName(v: Vault, path: string, k: nat, name: string, rest: seq<string>)
    requires path in v.entries && k <= |v.entries[path]| && v.entries[path][k..] == [name] + rest
    ensures k < |v.entries[path]| && v.entries[path][k] == name && v.entries[path][k + 1..] == rest
  {
  }

  // The documents that a listing has to visit are exactly those of the tree.
  lemma MountListed(t: Tree, doc: string)
    requires WellNamed(t)
    ensures Listed(Mount(t), doc) <==> doc in DocumentsOf(t, "")
  {
    hide Listed, Within;
    var v := Mount(t);
    RendersTree(t, "");
    OwnEntry(t, "", ShownNames(t));
    WithinSame(v.documents);
    ShowsMore(Vault(EntriesOf(t, ""), DocumentsOf(t, "")), v, t, "");
    assert v.entries[""][0..] == ShownNames(t);
    BelowTree(v, t, "", 0);
    BelowExact(v, doc);
  }

  // Listing a mount whose keys are all usable yields, for every document of the tree and every key of it, the path of
  // the document, a slash and the key, with the document's version, and nothing else.
  lemma MountSecrets(t: Tree, secrets: map<string, Secret>)
    requires WellNamed(t) && SecretsOf(Mount(t), ListedDocuments(Mount(t)), secrets)
    ensures forall doc, key :: doc in DocumentsOf(t, "") && key in DocumentsOf(t, "")[doc].data ==>
              doc + "/" + key in secrets &&
              secrets[doc + "/" + key] == Secret(doc + "/" + key, DocumentsOf(t, "")[doc].versionId)
    ensures forall path :: path in secrets ==>
              exists doc, key :: doc in DocumentsOf(t, "") && key in DocumentsOf(t, "")[doc].data &&
                                 path == doc + "/" + key
  {
    hide *;
    forall doc, key | doc in DocumentsOf(t, "") && key in DocumentsOf(t, "")[doc].data
      ensures doc + "/" + key in secrets
      ensures secrets[doc + "/" + key] == Secret(doc + "/" + key, DocumentsOf(t, "")[doc].versionId)
    {
      EntryUnder(t, doc, key, secrets);
    }
    forall path | path in secrets
      ensures exists doc, key :: doc in DocumentsOf(t, "") && key in DocumentsOf(t, "")[doc].data &&
                                 path == doc + "/" + key
    {
      var doc, key := SecretUnder(t, path, secrets);
    }
  }

  lemma EntryUnder(t: Tree, doc: string, key: string, secrets: map<string, Secret>)
    requires WellNamed(t) && SecretsOf(Mount(t), ListedDocuments(Mount(t)), secrets)
    requires doc in DocumentsOf(t, "") && key in DocumentsOf(t, "")[doc].data
    ensures doc + "/" + key in secrets
    ensures secrets[doc + "/" + key] == Secret(doc + "/" + key, DocumentsOf(t, "")[doc].versionId)
  {
    hide Listed, WellNamed, JoinPath, DocumentsOf;
    var v := Mount(t);
    RootNoDocument(t, doc);
    MountListed(t, doc);
    assert doc in ListedDocuments(v) && Usable(v, doc);
    JoinKey(doc, key);
    assert IsEntry(v, doc, key, doc + "/" + key);
  }

  lemma SecretUnder(t: Tree, path: string, secrets: map<string, Secret>) returns (doc: string, key: string)
    requires WellNamed(t) && SecretsOf(Mount(t), ListedDocuments(Mount(t)), secrets) && path in secrets
    ensures doc in DocumentsOf(t, "") && key in DocumentsOf(t, "")[doc].data && path == doc + "/" + key
  {
    hide Listed, WellNamed, JoinPath, DocumentsOf;
    var v := Mount(t);
    doc, key :| doc in ListedDocuments(v) && IsEntry(v, doc, key, path);
    MountListed(t, doc);
    RootNoDocument(t, doc);
    JoinKey(doc, key);
  }

  lemma RootNoDocument(t: Tree, doc: string)
    requires WellNamed(t) && doc in DocumentsOf(t, "")
    ensures doc != ""
  {
    var n := DocumentPath(t, "", doc);
  }

  // A mount has every document that it lists.
  lemma MountComplete(t: Tree, doc: string)
    requires WellNamed(t) && Listed(Mount(t), doc)
    ensures doc in Mount(t).documents
  {
    MountListed(t, doc);
  }
}
