// Whether services see the wanted versions after a synchronisation.
module Currency {
  import opened Docker
  import opened Rotation
  import opened Stages
  import opened Stability

  // Every reference into the group resolves to a secret of the wanted version.
  ghost predicate CurrentAt(w: World, want: map<string, Want>, p: string)
    requires p in want
  {
    forall s, k :: s in w.services && 0 <= k < |w.services[s].refs| && InGroup(w, p, w.services[s].refs[k].secretId) ==>
      w.secrets[w.services[s].refs[k].secretId].externalId == want[p].versionId
  }

  ghost predicate AllCurrent(w: World, want: map<string, Want>) {
    forall p :: p in want ==> CurrentAt(w, want, p)
  }

  // A completed run leaves a path's services on the wanted version exactly when it did not move them back to a
  // stale parent, and did not find them on versions without a parent.
  lemma CurrencyExact(
    w: World, want: map<string, Want>, run: map<string, Action>, restored: map<string, SecretId>, cleanup: bool,
    w': World, p: string)
    requires Completed(w, want, run, restored, cleanup, w') && p in want
    ensures CurrentAt(w', want, p) <==>
            if !Parented(w, p) then CurrentAt(w, want, p)
            else LatestIs(w, p, want[p].versionId) && Used(w, p) ==> ParentIs(w, want, p)
  {
    FitsAt(w, want, run, restored, cleanup, w', p);
    match run[p]
    case Created(_) => CurrentCreated(w, want, run, restored, cleanup, w', p);
    case Kept => CurrentKept(w, want, run, restored, cleanup, w', p);
    case Rotated(_) => CurrentRotated(w, want, run, restored, cleanup, w', p);
  }

  lemma CurrentRotated(
    w: World, want: map<string, Want>, run: map<string, Action>, restored: map<string, SecretId>, cleanup: bool,
    w': World, p: string)
    requires Completed(w, want, run, restored, cleanup, w') && p in want && run[p].Rotated?
    ensures CurrentAt(w', want, p)
  {
    RotatedOutcome(w, want, run, restored, cleanup, w', p);
    forall s, k | s in w'.services && 0 <= k < |w'.services[s].refs| &&
                  InGroup(w', p, w'.services[s].refs[k].secretId)
      ensures w'.secrets[w'.services[s].refs[k].secretId].externalId == want[p].versionId
    {
      AfterMove(w, want, run, restored, cleanup, w', p, s, k);
    }
  }

  lemma CurrentKept(
    w: World, want: map<string, Want>, run: map<string, Action>, restored: map<string, SecretId>, cleanup: bool,
    w': World, p: string)
    requires Completed(w, want, run, restored, cleanup, w') && p in want && run[p].Kept?
    ensures CurrentAt(w', want, p) <==> (Used(w, p) ==> ParentIs(w, want, p))
  {
    AfterKept(w, want, run, restored, cleanup, w', p);
    forall s, k | s in w'.services && 0 <= k < |w'.services[s].refs| &&
                  InGroup(w', p, w'.services[s].refs[k].secretId)
      ensures InGroup(w, p, w.services[s].refs[k].secretId) && w'.services[s].refs[k].secretId == ParentOf(w, p)
    {
      AfterMove(w, want, run, restored, cleanup, w', p, s, k);
    }
    if Used(w, p) {
      var s, k :| s in w.services && 0 <= k < |w.services[s].refs| && InGroup(w, p, w.services[s].refs[k].secretId);
      KeptMoves(w, want, run, restored, cleanup, w', p, s, k);
    }
  }

  // A reference into a kept group ends on its parent.
  lemma KeptMoves(
    w: World, want: map<string, Want>, run: map<string, Action>, restored: map<string, SecretId>, cleanup: bool,
    w': World, p: string, s: ServiceId, k: int)
    requires Completed(w, want, run, restored, cleanup, w') && p in want && run[p].Kept?
    requires s in w.services && 0 <= k < |w.services[s].refs| && InGroup(w, p, w.services[s].refs[k].secretId)
    ensures s in w'.services && |w'.services[s].refs| == |w.services[s].refs| && Parented(w, p)
    ensures w'.services[s].refs[k].secretId == ParentOf(w, p) && InGroup(w', p, ParentOf(w, p))
  {
    AfterKept(w, want, run, restored, cleanup, w', p);
    assert w'.services[s].refs[k] == Move(w, want, run, w.services[s].refs[k]);
  }

  lemma CurrentCreated(
    w: World, want: map<string, Want>, run: map<string, Action>, restored: map<string, SecretId>, cleanup: bool,
    w': World, p: string)
    requires Completed(w, want, run, restored, cleanup, w') && p in want && run[p].Created?
    ensures CurrentAt(w', want, p) <==> CurrentAt(w, want, p)
  {
    assert PathOutcome(w, want, p, run[p], restored, w');
    forall s, k | s in w.services && 0 <= k < |w.services[s].refs|
      ensures s in w'.services && |w'.services[s].refs| == |w.services[s].refs|
      ensures InGroup(w, p, w.services[s].refs[k].secretId) ==>
                w'.services[s].refs[k] == w.services[s].refs[k] && InGroup(w', p, w.services[s].refs[k].secretId)
    {
      assert w'.services[s].refs[k] == Move(w, want, run, w.services[s].refs[k]);
    }
    forall s, k | s in w'.services && 0 <= k < |w'.services[s].refs| &&
                  InGroup(w', p, w'.services[s].refs[k].secretId)
      ensures InGroup(w, p, w.services[s].refs[k].secretId) && w'.services[s].refs[k] == w.services[s].refs[k]
    {
      AfterMove(w, want, run, restored, cleanup, w', p, s, k);
    }
  }

  // ---------------------------------------------------------------- clean states

  // Every group has its parent, and the parent carries the latest version.
  ghost predicate CleanAt(w: World, p: string) {
    (exists i :: InGroup(w, p, i)) ==> Parented(w, p) && LatestIs(w, p, w.secrets[ParentOf(w, p)].externalId)
  }

  ghost predicate Clean(w: World) {
    forall p :: p != "" ==> CleanAt(w, p)
  }

  // Completed runs keep states clean, whatever the external storage wants in each of them, and after each of
  // them all services are on the wanted versions.
  lemma CleanStays(
    w: World, want: map<string, Want>, run: map<string, Action>, restored: map<string, SecretId>, cleanup: bool,
    w': World)
    requires Completed(w, want, run, restored, cleanup, w') && Clean(w)
    ensures Clean(w')
    ensures AllCurrent(w', want)
  {
    forall p | p != "" ensures CleanAt(w', p) {
      if p in want {
        CleanWanted(w, want, run, restored, cleanup, w', p);
      } else {
        CleanOther(w, want, run, restored, cleanup, w', p);
      }
    }
    forall p | p in want ensures CurrentAt(w', want, p) {
      assert CleanAt(w, p);
      CurrencyExact(w, want, run, restored, cleanup, w', p);
      CleanCurrent(w, want, p);
    }
  }

  lemma CleanCurrent(w: World, want: map<string, Want>, p: string)
    requires WellFormed(w) && CleanAt(w, p) && p in want
    ensures !Parented(w, p) ==> CurrentAt(w, want, p)
    ensures Parented(w, p) && LatestIs(w, p, want[p].versionId) ==> ParentIs(w, want, p)
  {
  }

  lemma CleanWanted(
    w: World, want: map<string, Want>, run: map<string, Action>, restored: map<string, SecretId>, cleanup: bool,
    w': World, p: string)
    requires Completed(w, want, run, restored, cleanup, w') && CleanAt(w, p) && p in want
    ensures CleanAt(w', p)
  {
    FitsAt(w, want, run, restored, cleanup, w', p);
    match run[p]
    case Created(_) => AfterCreated(w, want, run, restored, cleanup, w', p);
    case Rotated(_) => AfterRotated(w, want, run, restored, cleanup, w', p);
    case Kept =>
      CleanCurrent(w, want, p);
      KeptPhase(w, want, run, restored, cleanup, w', p);
  }

  lemma CleanOther(
    w: World, want: map<string, Want>, run: map<string, Action>, restored: map<string, SecretId>, cleanup: bool,
    w': World, q: string)
    requires Completed(w, want, run, restored, cleanup, w') && CleanAt(w, q) && q !in want
    ensures CleanAt(w', q)
  {
    if exists i :: InGroup(w', q, i) {
      var i :| InGroup(w', q, i);
      assert InGroup(w, q, i);
      forall j
        ensures InGroup(w', q, j) <==> InGroup(w, q, j)
        ensures InGroup(w, q, j) ==> j in w'.secrets && w'.secrets[j] == w.secrets[j]
      {
      }
      var n := ParentOf(w, q);
      assert InGroup(w, q, n) && IsParent(w', q, n);
      ParentUnique(w', q, n);
      SameLatest(w, w', q, w.secrets[n].externalId);
    }
  }

  // ---------------------------------------------------------------- payloads

  datatype VersionKey = VersionKey(path: string, versionId: string)

  // The payload of each external version that is ever wanted.
  type Payloads = map<VersionKey, string>

  ghost predicate WantBy(want: map<string, Want>, of: Payloads) {
    forall p :: p in want ==>
      VersionKey(p, want[p].versionId) in of && of[VersionKey(p, want[p].versionId)] == want[p].data
  }

  ghost function KeyOf(s: Secret): VersionKey {
    VersionKey(s.logicalPath, s.externalId)
  }

  // Whatever Swarm holds under such a version carries its payload.
  ghost predicate PayloadsBy(w: World, of: Payloads) {
    forall i :: i in w.secrets && KeyOf(w.secrets[i]) in of ==> w.secrets[i].data == of[KeyOf(w.secrets[i])]
  }

  // A run never stores a wrong payload under a version, whether or not it completes.
  lemma PayloadsKept(w: World, want: map<string, Want>, of: Payloads, w': World)
    requires Grown(w, want, w') && PayloadsBy(w, of) && WantBy(want, of)
    ensures PayloadsBy(w', of)
  {
  }

  // Every reference into the group resolves to a secret of the wanted version with the wanted payload.
  ghost predicate ServedAt(w: World, want: map<string, Want>, p: string)
    requires p in want
  {
    forall s, k :: s in w.services && 0 <= k < |w.services[s].refs| && InGroup(w, p, w.services[s].refs[k].secretId) ==>
      var secret := w.secrets[w.services[s].refs[k].secretId];
      secret.externalId == want[p].versionId && secret.data == want[p].data
  }

  ghost predicate AllServed(w: World, want: map<string, Want>) {
    forall p :: p in want ==> ServedAt(w, want, p)
  }

  lemma CurrentServed(w: World, want: map<string, Want>, of: Payloads)
    requires AllCurrent(w, want) && PayloadsBy(w, of) && WantBy(want, of)
    ensures AllServed(w, want)
  {
  }

  // The state that a path is to reach: one secret, the parent, with the wanted version and payload, unless the group
  // is unmanaged; and every reference on it.
  ghost predicate Canonical(w: World, want: map<string, Want>, p: string)
    requires p in want
  {
    Settled(w, want, p) && ServedAt(w, want, p) && w.secrets[ParentOf(w, p)].data == want[p].data
  }

  lemma SettledCanonical(w: World, want: map<string, Want>, of: Payloads, p: string)
    requires WellFormed(w) && PayloadsBy(w, of) && WantBy(want, of) && p in want && Settled(w, want, p)
    ensures Canonical(w, want, p)
  {
  }
}
