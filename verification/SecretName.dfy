// Secret names (internal/secretname): the Docker secret name of an external path, and the name of the
// temporary secret that carries a new version.
module SecretName {
  // Go counts bytes; a `char` stands for one byte.
  const MAX_LENGTH := 64

  // strings.ReplaceAll(path, "/", delimiter) for the one-character delimiters "-" and "_".
  function PreparePath(path: string, delimiter: char): (name: string)
    ensures |name| == |path|
  {
    seq(|path|, i requires 0 <= i < |path| => if path[i] == '/' then delimiter else path[i])
  }

  // Path and version do not fit into one name, so that a name is drawn.
  predicate DrawsName(path: string, versionId: string) {
    |path| + |versionId| + 1 > MAX_LENGTH
  }

  // The UUID that the source would draw is an input.
  function Generate(path: string, delimiter: char, versionId: string, uuid: string): (name: string) {
    if DrawsName(path, versionId) then uuid else PreparePath(path, delimiter) + "-" + versionId
  }

  // Two external paths get the same Docker name exactly when they differ only in slash against delimiter. A name has no
  // slash, and a path without one is its own name.
  lemma CollisionExact(a: string, b: string, delimiter: char)
    ensures PreparePath(a, delimiter) == PreparePath(b, delimiter) <==>
            |a| == |b| &&
            forall i :: 0 <= i < |a| ==> a[i] == b[i] || {a[i], b[i]} == {'/', delimiter}
    ensures delimiter != '/' ==> '/' !in PreparePath(a, delimiter)
    ensures '/' !in a ==> PreparePath(a, delimiter) == a
  {
    var pa, pb := PreparePath(a, delimiter), PreparePath(b, delimiter);
    if pa == pb {
      forall i | 0 <= i < |a| ensures a[i] == b[i] || {a[i], b[i]} == {'/', delimiter} {
        assert pa[i] == pb[i];
      }
    } else if |a| == |b| {
      var i :| 0 <= i < |a| && pa[i] != pb[i];
      assert '/' in {'/', delimiter} && delimiter in {'/', delimiter};
      assert a[i] in {a[i], b[i]} && b[i] in {a[i], b[i]};
    }
  }

  // A version name fits Docker's limit, and is drawn only when the composed one would not fit; only a drawn one can be
  // the name of its own parent; and two versions of one path share a name only if they are the same version composed
  // twice, or if a UUID came up that was a name already.
  lemma VersionNames(path: string, delimiter: char, v1: string, v2: string, uuid1: string, uuid2: string)
    ensures |uuid1| == 36 ==> |Generate(path, delimiter, v1, uuid1)| <= 64
    ensures DrawsName(path, v1) <==> |PreparePath(path, delimiter) + "-" + v1| > 64
    ensures Generate(path, delimiter, v1, uuid1) == PreparePath(path, delimiter) <==>
            DrawsName(path, v1) && uuid1 == PreparePath(path, delimiter)
    ensures Generate(path, delimiter, v1, uuid1) == Generate(path, delimiter, v2, uuid2) <==>
            if DrawsName(path, v1) && DrawsName(path, v2) then uuid1 == uuid2
            else if DrawsName(path, v1) then uuid1 == PreparePath(path, delimiter) + "-" + v2
            else if DrawsName(path, v2) then uuid2 == PreparePath(path, delimiter) + "-" + v1
            else v1 == v2
  {
    if !DrawsName(path, v1) && !DrawsName(path, v2) {
      var g1, g2 := Generate(path, delimiter, v1, uuid1), Generate(path, delimiter, v2, uuid2);
      assert g1[|path| + 1..] == v1 && g2[|path| + 1..] == v2;
    }
  }
}
