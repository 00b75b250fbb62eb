// Many callers of CreateSecretKey on one Vault document, interleaved call by call
// (internal/providers/vault/api/client_write.go).
module VaultCreators {
  import opened Wrappers
  import opened VaultCas

  datatype System = System(doc: Document, creators: seq<Creator>)

  ghost predicate CreatorStep(s: System, i: nat, s': System) {
    && i < |s.creators| == |s'.creators|
    && s'.creators == s.creators[i := s'.creators[i]]
    && OwnStep(s.creators[i], s.doc, s'.creators[i], s'.doc)
  }

  ghost predicate Starts(s: System) {
    forall i :: 0 <= i < |s.creators| ==> s.creators[i].phase == Reading && s.creators[i].puts == 0
  }

  ghost predicate Step(s: System, s': System) {
    exists i: nat :: CreatorStep(s, i, s')
  }

  ghost predicate StepAt(trace: seq<System>, k: nat)
    requires k + 1 < |trace|
  {
    Step(trace[k], trace[k + 1])
  }

  // Any interleaving of the callers' reads and writes.
  ghost predicate Interleaving(trace: seq<System>) {
    |trace| > 0 && Starts(trace[0]) && forall k: nat :: k + 1 < |trace| ==> StepAt(trace, k)
  }

  // What a caller takes part in is what the calls of CreateSecretKey amount to: its own calls, with other writes in
  // between.
  lemma {:induction false} CallerPerforms(trace: seq<System>, n: nat, i: nat) returns (moments: seq<Moment>)
    requires Interleaving(trace) && n < |trace| && i < |trace[0].creators|
    ensures |trace[n].creators| == |trace[0].creators|
    ensures Performs(trace[0].creators[i], trace[0].doc, moments, trace[n].creators[i], trace[n].doc)
  {
    hide OwnStep, Performs, Later;
    if n == 0 {
      PerformsNone(trace[0].creators[i], trace[0].doc);
      moments := [];
    } else {
      var before := CallerPerforms(trace, n - 1, i);
      assert StepAt(trace, n - 1);
      var s, s' := trace[n - 1], trace[n];
      var j: nat :| CreatorStep(s, j, s');
      if j == i {
        var m := Moment(s.creators[i], s.doc, s'.creators[i], s'.doc);
        PerformsMore(trace[0].creators[i], trace[0].doc, before, m);
        moments := before + [m];
      } else {
        OwnIsLater(s.creators[j], s.doc, s'.creators[j], s'.doc);
        PerformsLater(trace[0].creators[i], trace[0].doc, before, s.creators[i], s.doc, s'.doc);
        moments := before;
      }
    }
  }

  // To everybody else, a caller's step is a write of another.
  lemma OwnIsLater(c: Creator, doc: Document, c': Creator, doc': Document)
    requires OwnStep(c, doc, c', doc')
    ensures Later(doc, doc')
  {
  }

  predicate Created(s: System, i: int) {
    0 <= i < |s.creators| && s.creators[i].phase == Finished(None)
  }

  function Creators(s: System): set<int> {
    set i | 0 <= i < |s.creators| && Created(s, i)
  }

  ghost predicate KeepsBase(base: Document, s: System) {
    forall k :: k in base.data ==> k in s.doc.data && s.doc.data[k] == base.data[k]
  }

  ghost predicate HasCreated(base: Document, s: System) {
    forall i :: Created(s, i) ==>
      s.creators[i].key !in base.data && s.creators[i].key in s.doc.data &&
      s.doc.data[s.creators[i].key] == s.creators[i].value
  }

  ghost predicate CreatedBy(s: System, key: string) {
    exists i :: Created(s, i) && s.creators[i].key == key
  }

  ghost predicate HasNothingElse(base: Document, s: System) {
    forall k :: k in s.doc.data ==> k in base.data || CreatedBy(s, k)
  }

  ghost predicate OnePerKey(s: System) {
    forall i, j :: Created(s, i) && Created(s, j) && i != j ==> s.creators[i].key != s.creators[j].key
  }

  // The document holds what it started with and the keys of the callers that succeeded, and nothing else.
  ghost predicate Holds(base: Document, s: System) {
    && s.doc.version == base.version + |Creators(s)|
    && KeepsBase(base, s)
    && HasCreated(base, s)
    && HasNothingElse(base, s)
    && OnePerKey(s)
  }

  // What a caller that is still on its way, or gave up, has seen of the others.
  ghost predicate Tracks(base: Document, s: System, c: Creator) {
    match c.phase
    case Reading => c.puts <= |Creators(s)| && c.puts < CREATE_SECRET_KEY_ATTEMPTS
    case Holding(draft) =>
      && base.version + c.puts <= draft.cas <= s.doc.version && c.puts < CREATE_SECRET_KEY_ATTEMPTS
      && (draft.cas == s.doc.version ==> Drafts(s.doc, c.key, c.value, draft))
    case Finished(outcome) =>
      c.puts <= CREATE_SECRET_KEY_ATTEMPTS &&
      (outcome == Some(CasConflict) ==> CREATE_SECRET_KEY_ATTEMPTS <= |Creators(s)|)
  }

  ghost predicate Inv(base: Document, s: System) {
    Holds(base, s) && forall i :: 0 <= i < |s.creators| ==> Tracks(base, s, s.creators[i])
  }

  // A caller that did not succeed in this step adds nobody to those who did.
  lemma SameCreators(s: System, i: nat, s': System)
    requires CreatorStep(s, i, s') && s'.creators[i].phase != Finished(None)
    ensures Creators(s') == Creators(s)
    ensures forall j :: Created(s', j) <==> Created(s, j)
  {
  }

  lemma MoreCreators(s: System, i: nat, s': System)
    requires CreatorStep(s, i, s') && s'.creators[i].phase == Finished(None)
    ensures Creators(s') == Creators(s) + {i} && i !in Creators(s)
    ensures forall j :: Created(s', j) <==> Created(s, j) || j == i
    ensures |Creators(s')| == |Creators(s)| + 1
  {
  }

  lemma FailedHolds(base: Document, s: System, i: nat, s': System)
    requires Holds(base, s) && CreatorStep(s, i, s') && s'.creators[i].phase != Finished(None)
    ensures Holds(base, s')
  {
    SameCreators(s, i, s');
    assert s'.doc == s.doc;
    forall j | Created(s, j) ensures s'.creators[j] == s.creators[j] {
    }
    forall k | CreatedBy(s, k) ensures CreatedBy(s', k) {
      var j :| Created(s, j) && s.creators[j].key == k;
      assert Created(s', j);
    }
  }

  lemma CreatedHolds(base: Document, s: System, i: nat, s': System)
    requires Holds(base, s) && CreatorStep(s, i, s') && s'.creators[i].phase == Finished(None)
    requires Tracks(base, s, s.creators[i])
    ensures Holds(base, s')
  {
    MoreCreators(s, i, s');
    var c := s.creators[i];
    assert s'.doc.data == s.doc.data[c.key := c.value] && c.key !in s.doc.data;
    forall j | Created(s, j) ensures s'.creators[j] == s.creators[j] && s.creators[j].key != c.key {
      assert s.creators[j].key in s.doc.data;
    }
    assert HasCreated(base, s') && OnePerKey(s');
    forall k | k in s'.doc.data ensures k in base.data || CreatedBy(s', k) {
      if k == c.key {
        assert Created(s', i);
      } else if k !in base.data {
        assert CreatedBy(s, k);
        var j :| Created(s, j) && s.creators[j].key == k;
        assert Created(s', j);
      }
    }
  }

  lemma StepHolds(base: Document, s: System, i: nat, s': System)
    requires Inv(base, s) && CreatorStep(s, i, s')
    ensures Holds(base, s')
  {
    hide Holds;
    assert Tracks(base, s, s.creators[i]);
    if s'.creators[i].phase == Finished(None) {
      CreatedHolds(base, s, i, s');
    } else {
      FailedHolds(base, s, i, s');
    }
  }

  lemma StepTracks(base: Document, s: System, i: nat, s': System, j: int)
    requires Inv(base, s) && CreatorStep(s, i, s') && 0 <= j < |s.creators|
    ensures Tracks(base, s', s'.creators[j])
  {
    assert Tracks(base, s, s.creators[i]) && Tracks(base, s, s.creators[j]);
    assert j != i ==> s'.creators[j] == s.creators[j];
    if s'.creators[i].phase == Finished(None) {
      MoreCreators(s, i, s');
    } else {
      SameCreators(s, i, s');
    }
  }

  lemma {:induction false} InvAlways(trace: seq<System>, n: nat)
    requires Interleaving(trace) && n < |trace|
    ensures Inv(trace[0].doc, trace[n]) && |trace[n].creators| == |trace[0].creators|
  {
    var base := trace[0].doc;
    if n == 0 {
      assert Creators(trace[0]) == {};
    } else {
      InvAlways(trace, n - 1);
      assert StepAt(trace, n - 1);
      var i: nat :| CreatorStep(trace[n - 1], i, trace[n]);
      StepHolds(base, trace[n - 1], i, trace[n]);
      forall j | 0 <= j < |trace[n].creators| ensures Tracks(base, trace[n], trace[n].creators[j]) {
        StepTracks(base, trace[n - 1], i, trace[n], j);
      }
    }
  }

  // No update is lost: at any moment of any interleaving the document is the one it started as, plus exactly the
  // keys of the callers that have succeeded, each with its caller's value and one version per success. Of several
  // callers with one key at most one succeeds, and nobody writes more than three times.
  lemma NoLostUpdates(trace: seq<System>, n: nat)
    requires Interleaving(trace) && n < |trace|
    ensures Holds(trace[0].doc, trace[n])
    ensures |trace[n].creators| == |trace[0].creators|
    ensures forall i :: 0 <= i < |trace[n].creators| ==> trace[n].creators[i].puts <= CREATE_SECRET_KEY_ATTEMPTS
  {
    InvAlways(trace, n);
    forall i | 0 <= i < |trace[n].creators| ensures trace[n].creators[i].puts <= CREATE_SECRET_KEY_ATTEMPTS {
      assert Tracks(trace[0].doc, trace[n], trace[n].creators[i]);
    }
  }

  // Giving up on conflicts takes three others that succeeded, so among three callers nobody gives up.
  lemma GivingUp(trace: seq<System>, n: nat, i: nat)
    requires Interleaving(trace) && n < |trace| && i < |trace[n].creators|
    requires trace[n].creators[i].phase == Finished(Some(CasConflict))
    ensures |Creators(trace[n])| >= CREATE_SECRET_KEY_ATTEMPTS
    ensures |trace[0].creators| > CREATE_SECRET_KEY_ATTEMPTS
  {
    InvAlways(trace, n);
    assert Tracks(trace[0].doc, trace[n], trace[n].creators[i]);
    var s := trace[n];
    var all := Indices(|s.creators|);
    assert i !in Creators(s) && all == (Creators(s) + {i}) + (all - Creators(s) - {i});
    assert |all| == |Creators(s) + {i}| + |all - Creators(s) - {i}|;
  }

  function Indices(n: nat): (r: set<int>)
    ensures |r| == n && forall j :: j in r <==> 0 <= j < n
  {
    if n == 0 then {} else Indices(n - 1) + {n - 1}
  }
}
