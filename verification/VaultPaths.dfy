// How Vault secrets are named: the path of a document, a slash, and a key of it
// (internal/providers/vault/provider.go, internal/providers/vault/secret_path.go).
module VaultPaths {
  import opened Wrappers
  import opened Strings

  datatype SecretPath = SecretPath(path: string, key: string)

  datatype PathError = PathRequired | InvalidSegment

  function JoinPath(parent: string, child: string): (joined: string)
  {
    var p, c := TrimSlash(parent), TrimSlash(child);
    if p == "" then c else if c == "" then p else p + "/" + c
  }

  // strings.LastIndex(s, "/")
  function LastSlash(s: string): (i: int)
    ensures -1 <= i < |s|
    ensures i >= 0 ==> s[i] == '/'
    ensures forall k :: i < k < |s| ==> s[k] != '/'
  {
    if s == "" then -1 else if s[|s| - 1] == '/' then |s| - 1 else LastSlash(s[..|s| - 1])
  }

  function ParseSecretPath(path: string): Option<SecretPath> {
    var i := LastSlash(path);
    if i <= 0 || i == |path| - 1 then None else Some(SecretPath(path[..i], path[i + 1..]))
  }

  predicate KeyAllowed(key: string) {
    key != "" && '/' !in key
  }

  lemma JoinBare(parent: string, child: string)
    ensures Bare(JoinPath(parent, child), SLASH)
  {
    TrimIsBare(parent, SLASH);
    TrimIsBare(child, SLASH);
    var p, c, j := TrimSlash(parent), TrimSlash(child), JoinPath(parent, child);
    if p != "" && c != "" {
      assert j[0] == p[0] && j[|j| - 1] == c[|c| - 1];
    }
  }

  lemma JoinKey(doc: string, key: string)
    requires Bare(doc, SLASH) && KeyAllowed(key)
    ensures JoinPath(doc, key) == if doc == "" then key else doc + "/" + key
  {
  }

  // A listed path leads back to its document and key; a key of the root, which is no document, is refused.
  lemma ParseJoin(doc: string, key: string)
    requires Bare(doc, SLASH) && KeyAllowed(key)
    ensures ParseSecretPath(JoinPath(doc, key)) == if doc == "" then None else Some(SecretPath(doc, key))
  {
    JoinKey(doc, key);
    var path := JoinPath(doc, key);
    if doc != "" {
      assert path[|doc|] == '/';
      assert forall k :: |doc| < k < |path| ==> path[k] == key[k - |doc| - 1];
      assert LastSlash(path) == |doc|;
      assert path[..|doc|] == doc && path[|doc| + 1..] == key;
    } else {
      forall k | 0 <= k < |key| ensures key[k] != '/' {
        assert key[k] in key;
      }
    }
  }

  // Conversely, a path that parses is rebuilt from its parts exactly when the document part has no slash at its ends.
  lemma JoinParse(path: string)
    requires ParseSecretPath(path).Some?
    ensures var s := ParseSecretPath(path).value;
            KeyAllowed(s.key) && path == s.path + "/" + s.key &&
            (JoinPath(s.path, s.key) == path <==> Bare(s.path, SLASH))
  {
    var s := ParseSecretPath(path).value;
    var i := LastSlash(path);
    assert path == path[..i] + "/" + path[i + 1..];
    TrimBare(s.key, SLASH);
    TrimIsBare(s.path, SLASH);
    if TrimSlash(s.path) != "" {
      assert JoinPath(s.path, s.key) == TrimSlash(s.path) + "/" + s.key;
      if JoinPath(s.path, s.key) == path {
        assert |TrimSlash(s.path)| == |s.path|;
        assert TrimSlash(s.path) == path[..i];
      }
    } else {
      assert |JoinPath(s.path, s.key)| < |path|;
    }
  }

  // Different documents or keys never share a path.
  lemma JoinInjective(doc1: string, key1: string, doc2: string, key2: string)
    requires Bare(doc1, SLASH) && KeyAllowed(key1) && Bare(doc2, SLASH) && KeyAllowed(key2)
    requires JoinPath(doc1, key1) == JoinPath(doc2, key2)
    ensures doc1 == doc2 && key1 == key2
  {
    ParseJoin(doc1, key1);
    ParseJoin(doc2, key2);
    JoinKey(doc1, key1);
    JoinKey(doc2, key2);
  }

  method NormalizeCreatePath(value: string) returns (r: Result<string, PathError>)
    ensures r.Ok? ==> GoodSegments(r.value) && r.value == TrimSlash(TrimSpace(value))
    ensures r == Err(PathRequired) <==> TrimSlash(TrimSpace(value)) == ""
    ensures r == Err(InvalidSegment) <==>
            TrimSlash(TrimSpace(value)) != "" && !GoodSegments(TrimSlash(TrimSpace(value)))
  {
    var normalized := TrimSlash(TrimSpace(value));
    if normalized == "" {
      return Err(PathRequired);
    }
    var segments := Split(normalized);
    for i := 0 to |segments|
      invariant forall k :: 0 <= k < i ==> !BadSegment(segments[k])
    {
      if BadSegment(segments[i]) {
        return Err(InvalidSegment);
      }
    }
    return Ok(normalized);
  }

  // A key created in a normalised document is listed under a path that leads back to it.
  lemma CreatedParses(path: string, key: string)
    requires GoodSegments(path) && KeyAllowed(key)
    ensures TrimSlash(path) == path && ParseSecretPath(JoinPath(path, key)) == Some(SecretPath(path, key))
  {
    GoodIsBare(path);
    TrimBare(path, SLASH);
    ParseJoin(path, key);
  }
}
