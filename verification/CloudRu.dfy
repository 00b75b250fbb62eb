// Secret paths below a configured root folder (internal/providers/cloudru/secret.go).
module CloudRu {
  import opened Wrappers
  import opened Strings

  datatype Config = Config(rootFolder: string, rootFolderOmitPrefix: bool)

  datatype Error = PathRequired | InvalidSegment | MatchesRoot | OutsideRoot

  datatype SecretPath = SecretPath(logical: string, full: string)

  // Reading the configuration trims the root folder.
  predicate Configured(cfg: Config) {
    Bare(cfg.rootFolder, SLASH)
  }

  predicate OmitsPrefix(cfg: Config) {
    cfg.rootFolderOmitPrefix && cfg.rootFolder != ""
  }

  // The path names something in the folder, however deep.
  predicate Inside(folder: string, path: string) {
    HasPrefix(path, folder + "/") && |path| > |folder| + 1
  }

  function ResolveSecretPath(cfg: Config, path: string): (full: string) {
    if !cfg.rootFolderOmitPrefix || cfg.rootFolder == "" then path
    else
      var trimmed := TrimSlash(path);
      if trimmed == "" then cfg.rootFolder
      else if trimmed == cfg.rootFolder || HasPrefix(trimmed, cfg.rootFolder + "/") then trimmed
      else cfg.rootFolder + "/" + trimmed
  }

  function ScopeSecretPath(cfg: Config, path: string): (r: Result<string, Error>) {
    var trimmed := TrimSlash(path);
    if !cfg.rootFolderOmitPrefix || cfg.rootFolder == "" then Ok(trimmed)
    else if trimmed == cfg.rootFolder then Err(MatchesRoot)
    else if !HasPrefix(trimmed, cfg.rootFolder + "/") then Err(OutsideRoot)
    else Ok(trimmed[|cfg.rootFolder| + 1..])
  }

  // Below the folder: a non-empty bare folder, a slash, and something that does not end in a slash.
  lemma Below(folder: string, rest: string)
    requires folder != "" && Bare(folder, SLASH) && rest != "" && rest[|rest| - 1] != '/'
    ensures Bare(folder + "/" + rest, SLASH) && TrimSlash(folder + "/" + rest) == folder + "/" + rest
    ensures Inside(folder, folder + "/" + rest) && (folder + "/" + rest)[|folder| + 1..] == rest
  {
  }

  lemma PrefixInside(folder: string, path: string)
    requires Bare(path, SLASH) && HasPrefix(path, folder + "/")
    ensures Inside(folder, path) && path == folder + "/" + path[|folder| + 1..]
  {
  }

  // What scoping accepts, and what it cuts off.
  lemma ScopeExact(cfg: Config, full: string)
    requires Configured(cfg) && OmitsPrefix(cfg) && Bare(full, SLASH)
    ensures ScopeSecretPath(cfg, full).Ok? <==> Inside(cfg.rootFolder, full)
    ensures ScopeSecretPath(cfg, full).Ok? ==>
              full == cfg.rootFolder + "/" + ScopeSecretPath(cfg, full).value && ScopeSecretPath(cfg, full).value != ""
  {
  }

  // Scoping tells full paths apart.
  lemma ScopeInjective(cfg: Config, f: string, g: string)
    requires Configured(cfg) && Bare(f, SLASH) && Bare(g, SLASH)
    requires ScopeSecretPath(cfg, f).Ok? && ScopeSecretPath(cfg, f) == ScopeSecretPath(cfg, g)
    ensures f == g
  {
  }

  // A scoped path that resolving takes for something else.
  predicate Ambiguous(cfg: Config, scoped: string) {
    scoped == cfg.rootFolder || HasPrefix(scoped, cfg.rootFolder + "/") || HasPrefix(scoped, "/")
  }

  // Resolving undoes scoping exactly when no prefix is omitted or the scoped path is not ambiguous: it is neither the
  // name of the root folder nor inside a folder of that name, and it does not begin with a slash.
  lemma ResolveScopeExact(cfg: Config, full: string)
    requires Configured(cfg) && Bare(full, SLASH) && ScopeSecretPath(cfg, full).Ok?
    ensures ResolveSecretPath(cfg, ScopeSecretPath(cfg, full).value) == full <==>
            (OmitsPrefix(cfg) ==> !Ambiguous(cfg, ScopeSecretPath(cfg, full).value))
  {
    if OmitsPrefix(cfg) {
      ResolveScopeOmitting(cfg, full);
    } else {
      TrimBare(full, SLASH);
    }
  }

  lemma ResolveScopeOmitting(cfg: Config, full: string)
    requires Configured(cfg) && OmitsPrefix(cfg) && Bare(full, SLASH) && ScopeSecretPath(cfg, full).Ok?
    ensures ResolveSecretPath(cfg, ScopeSecretPath(cfg, full).value) == full <==>
            !Ambiguous(cfg, ScopeSecretPath(cfg, full).value)
  {
    ScopeExact(cfg, full);
    var root, scoped := cfg.rootFolder, ScopeSecretPath(cfg, full).value;
    assert full[|full| - 1] == scoped[|scoped| - 1];
    var a, b := TrimParts(scoped, SLASH);
    if scoped[0] == '/' {
      assert scoped == a + (TrimSlash(scoped) + b);
      assert |TrimSlash(scoped)| < |scoped|;
    } else {
      TrimBare(scoped, SLASH);
    }
  }

  // Both ways in which the round trip fails.
  lemma RoundTripFails()
    ensures var cfg := Config("prod", true);
            ScopeSecretPath(cfg, "prod/prod/db") == Ok("prod/db") && ResolveSecretPath(cfg, "prod/db") == "prod/db"
    ensures var cfg := Config("prod", true);
            ScopeSecretPath(cfg, "prod//db") == Ok("/db") && ResolveSecretPath(cfg, "/db") == "prod/db"
  {
    TrimBare("prod/prod/db", SLASH);
    TrimBare("prod//db", SLASH);
    TrimBare("prod/db", SLASH);
    TrimIs("/", "db", "", SLASH);
    assert "/" + "db" + "" == "/db";
  }

  // Scoping undoes resolving exactly when no prefix is omitted or the path is not one that already leads into the root
  // folder.
  lemma ScopeResolveExact(cfg: Config, path: string)
    requires Configured(cfg)
    ensures ScopeSecretPath(cfg, ResolveSecretPath(cfg, path)) == Ok(TrimSlash(path)) <==>
            (OmitsPrefix(cfg) ==> TrimSlash(path) != "" && !Ambiguous(cfg, TrimSlash(path)))
  {
    if OmitsPrefix(cfg) {
      ScopeResolveOmitting(cfg, path);
    }
  }

  // A path is sent as it is given unless a prefix is omitted; then the request stays at or inside the root folder, and
  // resolving again changes nothing.
  lemma ResolvedInside(cfg: Config, path: string)
    requires Configured(cfg)
    ensures var full := ResolveSecretPath(cfg, path);
            if OmitsPrefix(cfg) then
              (full == cfg.rootFolder || Inside(cfg.rootFolder, full)) && Bare(full, SLASH) &&
              ResolveSecretPath(cfg, full) == full
            else full == path
  {
    TrimIsBare(path, SLASH);
    var trimmed := TrimSlash(path);
    if OmitsPrefix(cfg) && trimmed != "" && trimmed != cfg.rootFolder {
      if HasPrefix(trimmed, cfg.rootFolder + "/") {
        PrefixInside(cfg.rootFolder, trimmed);
        TrimBare(trimmed, SLASH);
      } else {
        Below(cfg.rootFolder, trimmed);
      }
    } else {
      TrimBare(cfg.rootFolder, SLASH);
    }
  }

  lemma ScopeResolveOmitting(cfg: Config, path: string)
    requires Configured(cfg) && OmitsPrefix(cfg)
    ensures ScopeSecretPath(cfg, ResolveSecretPath(cfg, path)) == Ok(TrimSlash(path)) <==>
            TrimSlash(path) != "" && !Ambiguous(cfg, TrimSlash(path))
  {
    var root, trimmed := cfg.rootFolder, TrimSlash(path);
    TrimIsBare(path, SLASH);
    TrimBare(root, SLASH);
    if trimmed != "" && trimmed != root {
      if HasPrefix(trimmed, root + "/") {
        TrimBare(trimmed, SLASH);
        assert |trimmed[|root| + 1..]| < |trimmed|;
      } else {
        Below(root, trimmed);
      }
    }
  }

  // Where a new secret goes: its full path is the root folder and its logical path, and scoping the full path gives
  // the logical one; without omitting the prefix both are the given path, which is inside the root folder.
  ghost predicate Placed(cfg: Config, path: string, created: SecretPath) {
    && (cfg.rootFolder != "" ==> Inside(cfg.rootFolder, created.full))
    && ScopeSecretPath(cfg, created.full) == Ok(created.logical)
    && (if OmitsPrefix(cfg) then
          created.full == cfg.rootFolder + "/" + created.logical &&
          created.logical == if Inside(cfg.rootFolder, path) then path[|cfg.rootFolder| + 1..] else path
        else
          created.logical == path && created.full == path)
  }

  lemma PlacedOmitting(cfg: Config, path: string)
    requires Configured(cfg) && OmitsPrefix(cfg) && GoodSegments(path)
    ensures var scoped := ScopeSecretPath(cfg, ResolveSecretPath(cfg, path));
            if path == cfg.rootFolder then scoped == Err(MatchesRoot)
            else scoped.Ok? && Placed(cfg, path, SecretPath(scoped.value, ResolveSecretPath(cfg, path)))
  {
    GoodIsBare(path);
    TrimBare(path, SLASH);
    if path != cfg.rootFolder {
      if HasPrefix(path, cfg.rootFolder + "/") {
        PrefixInside(cfg.rootFolder, path);
      } else {
        Below(cfg.rootFolder, path);
      }
    }
  }

  lemma PlacedKeeping(cfg: Config, path: string)
    requires Configured(cfg) && !OmitsPrefix(cfg) && GoodSegments(path)
    requires cfg.rootFolder != "" ==> HasPrefix(path, cfg.rootFolder + "/")
    ensures Placed(cfg, path, SecretPath(path, path))
  {
    GoodIsBare(path);
    TrimBare(path, SLASH);
    if cfg.rootFolder != "" {
      PrefixInside(cfg.rootFolder, path);
    }
  }

  method CreateSecretPath(cfg: Config, value: string) returns (r: Result<SecretPath, Error>)
    requires Configured(cfg)
    ensures r.Ok? ==> GoodSegments(TrimSlash(TrimSpace(value))) && Placed(cfg, TrimSlash(TrimSpace(value)), r.value)
    ensures r == Err(PathRequired) <==> TrimSlash(TrimSpace(value)) == ""
    ensures r == Err(InvalidSegment) <==>
            TrimSlash(TrimSpace(value)) != "" && !GoodSegments(TrimSlash(TrimSpace(value)))
    ensures r == Err(MatchesRoot) <==>
            GoodSegments(TrimSlash(TrimSpace(value))) && OmitsPrefix(cfg) &&
            TrimSlash(TrimSpace(value)) == cfg.rootFolder
    ensures r == Err(OutsideRoot) <==>
            GoodSegments(TrimSlash(TrimSpace(value))) && cfg.rootFolder != "" && !cfg.rootFolderOmitPrefix &&
            !Inside(cfg.rootFolder, TrimSlash(TrimSpace(value)))
  {
    hide ResolveSecretPath, ScopeSecretPath, Placed, Trim;
    var normalized := TrimSlash(TrimSpace(value));
    if normalized == "" {
      assert BadSegment(Split(normalized)[0]);
      return Err(PathRequired);
    }
    var segments := Split(normalized);
    for i := 0 to |segments|
      invariant forall k :: 0 <= k < i ==> !BadSegment(segments[k])
    {
      if BadSegment(segments[i]) {
        return Err(InvalidSegment);
      }
    }
    GoodIsBare(normalized);
    if cfg.rootFolder == "" {
      PlacedKeeping(cfg, normalized);
      return Ok(SecretPath(normalized, normalized));
    }
    if cfg.rootFolderOmitPrefix {
      PlacedOmitting(cfg, normalized);
      var full := ResolveSecretPath(cfg, normalized);
      var logical := ScopeSecretPath(cfg, full);
      if logical.Err? {
        return Err(logical.error);
      }
      return Ok(SecretPath(logical.value, full));
    }
    if normalized == cfg.rootFolder || !HasPrefix(normalized, cfg.rootFolder + "/") {
      return Err(OutsideRoot);
    }
    PlacedKeeping(cfg, normalized);
    return Ok(SecretPath(normalized, normalized));
  }
}
