// What one synchronisation means for the state of Swarm, path by path.
// A group is the set of secrets that carry one logical path; its parent is the one named like the path.
module Rotation {
  import opened Docker

  // What the external storage wants at one logical path, with the name a new version of it would get.
  datatype Want = Want(versionId: string, data: string, description: string, externalPath: string, versionName: string)

  datatype Replacement = Replacement(name: string, id: SecretId)

  // What a run did at one wanted path, with the ids of the secrets that it created.
  datatype Action = Created(parent: SecretId) | Kept | Rotated(version: SecretId)

  ghost predicate IsParent(w: World, p: string, i: SecretId) {
    i in w.secrets && w.secrets[i].name == p && w.secrets[i].logicalPath == p
  }

  ghost predicate InGroup(w: World, p: string, i: SecretId) {
    i in w.secrets && w.secrets[i].logicalPath == p
  }

  ghost predicate Parented(w: World, p: string) {
    exists i :: IsParent(w, p, i)
  }

  ghost function ParentOf(w: World, p: string): (i: SecretId)
    requires Parented(w, p)
    ensures IsParent(w, p, i)
  {
    var i :| IsParent(w, p, i);
    i
  }

  ghost predicate Managed(w: World, p: string) {
    exists i :: InGroup(w, p, i) && w.secrets[i].managed
  }

  ghost predicate IsLatest(w: World, p: string, i: SecretId) {
    InGroup(w, p, i) && forall j :: InGroup(w, p, j) ==> w.secrets[j].updatedAt <= w.secrets[i].updatedAt
  }

  ghost predicate LatestIs(w: World, p: string, versionId: string) {
    exists i :: IsLatest(w, p, i) && w.secrets[i].externalId == versionId
  }

  // Some service refers into the group.
  ghost predicate Used(w: World, p: string) {
    exists s, k :: s in w.services && 0 <= k < |w.services[s].refs| && InGroup(w, p, w.services[s].refs[k].secretId)
  }

  // ---------------------------------------------------------------- well-formed states

  ghost predicate Resolves(w: World, r: Ref) {
    r.secretId in w.secrets && r.secretName == w.secrets[r.secretId].name
  }

  ghost predicate RefsResolve(w: World) {
    forall s, k :: s in w.services && 0 <= k < |w.services[s].refs| ==> Resolves(w, w.services[s].refs[k])
  }

  ghost predicate NamesUnique(w: World) {
    forall i, j :: i in w.secrets && j in w.secrets && w.secrets[i].name == w.secrets[j].name ==> i == j
  }

  ghost predicate StampsDistinct(w: World) {
    forall i, j :: (i in w.secrets && j in w.secrets && w.secrets[i].logicalPath == w.secrets[j].logicalPath &&
                    w.secrets[i].updatedAt == w.secrets[j].updatedAt) ==> i == j
  }

  ghost predicate InPast(w: World) {
    w.serial > 0 && forall i :: i in w.secrets ==> 0 < i.serial < w.serial && w.secrets[i].updatedAt < w.now
  }

  // What Docker guarantees: unique ids and names, growing timestamps, references that resolve.
  ghost predicate WellFormed(w: World) {
    NamesUnique(w) && StampsDistinct(w) && InPast(w) && RefsResolve(w)
  }

  // Generated version names do not clash with each other or with wanted paths.
  ghost predicate NamesDisjoint(want: map<string, Want>) {
    "" !in want &&
    (forall p, q :: p in want && q in want ==> want[p].versionName != q) &&
    (forall p, q :: p in want && q in want && want[p].versionName == want[q].versionName ==> p == q)
  }

  // A taken version name belongs to the wanted version of this very group, and nothing newer superseded it.
  ghost predicate VersionNameKept(w: World, p: string, wanted: Want) {
    forall i :: i in w.secrets && w.secrets[i].name == wanted.versionName ==>
      w.secrets[i].logicalPath == p && w.secrets[i].externalId == wanted.versionId &&
      forall j :: InGroup(w, p, j) && j != i ==>
        w.secrets[j].updatedAt < w.secrets[i].updatedAt ||
        (w.secrets[j].name == p && w.secrets[j].externalId == wanted.versionId)
  }

  // The names that a run may need are free, or taken by what an earlier run for the same versions left.
  ghost predicate Compatible(w: World, want: map<string, Want>) {
    NamesDisjoint(want) &&
    (forall p :: p in want ==> VersionNameKept(w, p, want[p])) &&
    (forall p, i :: p in want && i in w.secrets && w.secrets[i].name == p ==> w.secrets[i].logicalPath == p)
  }

  ghost predicate Ready(w: World, want: map<string, Want>) {
    WellFormed(w) && Compatible(w, want)
  }

  // ---------------------------------------------------------------- the requests of a run

  function ParentSecret(p: string, wanted: Want): Secret {
    Secret(p, p, wanted.externalPath, wanted.versionId, wanted.description, true, wanted.data, 0)
  }

  // A version keeps the external_path label of the parent that it updates.
  function VersionSecret(p: string, externalPath: string, wanted: Want): Secret {
    Secret(wanted.versionName, p, externalPath, wanted.versionId, wanted.description, true, wanted.data, 0)
  }

  ghost predicate ActionFits(w: World, want: map<string, Want>, p: string, a: Action)
    requires p in want
  {
    (a.Created? <==> !Parented(w, p)) &&
    (a.Kept? <==> Parented(w, p) && LatestIs(w, p, want[p].versionId))
  }

  // Whether a run moves the references of group `p`, and where to.
  ghost predicate HasTarget(w: World, run: map<string, Action>, p: string) {
    p in run && (run[p].Rotated? || (run[p].Kept? && Parented(w, p)))
  }

  ghost function Target(w: World, want: map<string, Want>, run: map<string, Action>, p: string): Replacement
    requires HasTarget(w, run, p) && p in want
  {
    match run[p]
    case Rotated(version) => Replacement(want[p].versionName, version)
    case _ => Replacement(p, ParentOf(w, p))
  }

  // The pure substitution that steps 3 and 4 together perform on one reference.
  ghost function Move(w: World, want: map<string, Want>, run: map<string, Action>, r: Ref): (m: Ref)
    ensures m.file == r.file
  {
    if r.secretId in w.secrets && HasTarget(w, run, w.secrets[r.secretId].logicalPath) &&
       w.secrets[r.secretId].logicalPath in want then
      var target := Target(w, want, run, w.secrets[r.secretId].logicalPath);
      r.(secretName := target.name, secretId := target.id)
    else r
  }

  ghost function MoveAll(w: World, want: map<string, Want>, run: map<string, Action>, refs: seq<Ref>): (m: seq<Ref>)
    ensures |m| == |refs|
    ensures forall k :: 0 <= k < |refs| ==> m[k] == Move(w, want, run, refs[k])
  {
    seq(|refs|, k requires 0 <= k < |refs| => Move(w, want, run, refs[k]))
  }

  // The secrets that step 5 removes.
  ghost predicate Dropped(w: World, run: map<string, Action>, i: SecretId) {
    i in w.secrets &&
    var q := w.secrets[i].logicalPath;
    q in run &&
    (run[q].Rotated? || (run[q].Kept? && Managed(w, q) && w.secrets[i].name != q))
  }

  // The groups that step 7 removes.
  ghost predicate Orphan(w: World, want: map<string, Want>, q: string) {
    q !in want && q != "" && Parented(w, q) && Managed(w, q) && !Used(w, q)
  }

  // ---------------------------------------------------------------- each request keeps a state well-formed

  lemma ParentUnique(w: World, p: string, i: SecretId)
    requires NamesUnique(w) && IsParent(w, p, i)
    ensures Parented(w, p) && ParentOf(w, p) == i
  {
  }

  lemma AddKeepsWellFormed(w: World, secret: Secret)
    requires WellFormed(w) && !NameTaken(w, secret.name)
    ensures WellFormed(AddSecret(w, secret))
  {
  }

  lemma DropKeepsWellFormed(w: World, id: SecretId)
    requires WellFormed(w) && !InUse(w, id)
    ensures WellFormed(DropSecrets(w, {id}))
  {
  }

  lemma PutKeepsWellFormed(w: World, s: ServiceId, refs: seq<Ref>)
    requires WellFormed(w) && s in w.services
    requires forall k :: 0 <= k < |refs| ==> Resolves(w, refs[k])
    ensures WellFormed(PutService(w, s, refs))
  {
  }

  // ---------------------------------------------------------------- the names that a run needs

  ghost predicate NeedsName(w: World, want: map<string, Want>, p: string) {
    p in want && (Parented(w, p) ==> !LatestIs(w, p, want[p].versionId))
  }

  // A missing secret is created under its path, a new version under its own name.
  ghost function NeededName(w: World, want: map<string, Want>, p: string): string
    requires p in want
  {
    if Parented(w, p) then want[p].versionName else p
  }

  // The name that the path needs is taken already.
  ghost predicate Blocked(w: World, want: map<string, Want>, p: string) {
    NeedsName(w, want, p) && NameTaken(w, NeededName(w, want, p))
  }

  // Every name that the run needs is free, and no two paths need the same one.
  ghost predicate NamesFree(w: World, want: map<string, Want>) {
    (forall p :: !Blocked(w, want, p)) &&
    (forall p, q :: (NeedsName(w, want, p) && NeedsName(w, want, q) &&
                     NeededName(w, want, p) == NeededName(w, want, q)) ==> p == q)
  }

  // When a version has to be created, its name is free.
  lemma VersionNameFree(w: World, want: map<string, Want>, p: string)
    requires Ready(w, want) && p in want && Parented(w, p) && !LatestIs(w, p, want[p].versionId)
    ensures !NameTaken(w, want[p].versionName)
  {
  }

  lemma ReadyNamesFree(w: World, want: map<string, Want>)
    requires Ready(w, want)
    ensures NamesFree(w, want)
  {
    forall p ensures !Blocked(w, want, p) {
      if NeedsName(w, want, p) {
        if Parented(w, p) {
          VersionNameFree(w, want, p);
        } else {
          assert forall i :: i in w.secrets && w.secrets[i].name == p ==> IsParent(w, p, i);
        }
      }
    }
  }
}
