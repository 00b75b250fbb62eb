// All callers of Application.Sync at once: the interval loop, SIGHUP and gRPC (internal/application/cs/app.go).
module SyncLock {
  import opened Wrappers

  // A time of success is never followed by an earlier one.
  predicate NotBefore(a: Option<int>, b: Option<int>) {
    a.Some? ==> b.Some? && a.value <= b.value
  }

  // Where one caller is: not in Sync, in the synchroniser, past it with its result and completion time, or about to
  // release the flag.
  datatype Caller = Outside | Running | Completed(success: bool, at: int) | Leaving

  // What all callers share.
  datatype Shared = Shared(synchronizing: bool, lastSyncAt: Option<int>, clock: int)

  // ---------------------------------------------------------------- the steps of one caller

  ghost predicate Enter(c: Caller, m: Shared, c': Caller, m': Shared) {
    c.Outside? && !m.synchronizing && c' == Running && m' == m.(synchronizing := true)
  }

  // The caller gets ErrSyncInProgress.
  ghost predicate Reject(c: Caller, m: Shared, c': Caller, m': Shared) {
    c.Outside? && m.synchronizing && c' == c && m' == m
  }

  ghost predicate Complete(c: Caller, m: Shared, c': Caller, m': Shared) {
    c.Running? && c'.Completed? && c'.at == m.clock && m' == m
  }

  ghost predicate Record(c: Caller, m: Shared, c': Caller, m': Shared) {
    c.Completed? && c' == Leaving &&
    m' == m.(lastSyncAt := if c.success then Some(c.at) else m.lastSyncAt)
  }

  ghost predicate Leave(c: Caller, m: Shared, c': Caller, m': Shared) {
    c.Leaving? && c' == Outside && m' == m.(synchronizing := false)
  }

  ghost predicate SyncStep(c: Caller, m: Shared, c': Caller, m': Shared) {
    Enter(c, m, c', m') || Reject(c, m, c', m') || Complete(c, m, c', m') || Record(c, m, c', m') ||
    Leave(c, m, c', m')
  }

  // What the other callers and the clock can do while this one makes no step: if it is inside, they leave it the flag
  // and the time of the last success.
  ghost predicate Meanwhile(inside: bool, m: Shared, m': Shared) {
    && m.clock <= m'.clock && NotBefore(m.lastSyncAt, m'.lastSyncAt) && NotBefore(m'.lastSyncAt, Some(m'.clock))
    && (inside ==> m'.synchronizing == m.synchronizing && m'.lastSyncAt == m.lastSyncAt)
  }

  // One step of a caller, with what it finds and leaves.
  datatype Moment = Moment(from: Caller, before: Shared, to: Caller, after: Shared)

  ghost predicate IsStep(m: Moment) {
    SyncStep(m.from, m.before, m.to, m.after)
  }

  // The steps of a caller take it from `first` to `last`, and others act in between.
  ghost predicate Performs(first: Caller, start: Shared, moments: seq<Moment>, last: Caller, end: Shared)
    decreases |moments|
  {
    if moments == [] then last == first && Meanwhile(!first.Outside?, start, end)
    else
      var m := moments[|moments| - 1];
      IsStep(m) && m.to == last && Meanwhile(!last.Outside?, m.after, end) &&
      Performs(first, start, moments[..|moments| - 1], m.from, m.before)
  }

  lemma PerformsLater(
    first: Caller, start: Shared, moments: seq<Moment>, last: Caller, end: Shared, end': Shared)
    requires Performs(first, start, moments, last, end) && Meanwhile(!last.Outside?, end, end')
    ensures Performs(first, start, moments, last, end')
  {
  }

  lemma PerformsMore(first: Caller, start: Shared, moments: seq<Moment>, m: Moment)
    requires Performs(first, start, moments, m.from, m.before) && IsStep(m)
    requires NotBefore(m.after.lastSyncAt, Some(m.after.clock))
    ensures Performs(first, start, moments + [m], m.to, m.after)
  {
  }

  // ---------------------------------------------------------------- all callers

  datatype System = System(shared: Shared, callers: seq<Caller>)

  predicate InsideAt(s: System, i: int) {
    0 <= i < |s.callers| && !s.callers[i].Outside?
  }

  ghost predicate CallerStep(s: System, i: nat, s': System) {
    && i < |s.callers| == |s'.callers| && s'.callers == s.callers[i := s'.callers[i]]
    && SyncStep(s.callers[i], s.shared, s'.callers[i], s'.shared)
  }

  // The clock is monotone.
  ghost predicate Tick(s: System, s': System) {
    s.shared.clock <= s'.shared.clock && s' == s.(shared := s.shared.(clock := s'.shared.clock))
  }

  ghost predicate Step(s: System, s': System) {
    Tick(s, s') || exists i: nat :: CallerStep(s, i, s')
  }

  ghost predicate StepAt(trace: seq<System>, k: nat)
    requires k + 1 < |trace|
  {
    Step(trace[k], trace[k + 1])
  }

  ghost predicate Interleaving(trace: seq<System>) {
    && |trace| > 0 && !trace[0].shared.synchronizing && trace[0].shared.lastSyncAt.None?
    && (forall i :: 0 <= i < |trace[0].callers| ==> trace[0].callers[i].Outside?)
    && forall k: nat :: k + 1 < |trace| ==> StepAt(trace, k)
  }

  // At most one caller is inside, and the flag is set exactly while one is.
  ghost predicate Exclusive(s: System) {
    && (forall i, j :: InsideAt(s, i) && InsideAt(s, j) ==> i == j)
    && (s.shared.synchronizing <==> exists i :: InsideAt(s, i))
  }

  ghost predicate TimesInOrder(s: System) {
    && NotBefore(s.shared.lastSyncAt, Some(s.shared.clock))
    && forall i :: InsideAt(s, i) && s.callers[i].Completed? ==>
         s.callers[i].at <= s.shared.clock && NotBefore(s.shared.lastSyncAt, Some(s.callers[i].at))
  }

  lemma StepExclusive(s: System, s': System)
    requires Exclusive(s) && Step(s, s')
    ensures Exclusive(s')
  {
    if Tick(s, s') {
      assert forall j :: InsideAt(s', j) <==> InsideAt(s, j);
    } else {
      var i: nat :| CallerStep(s, i, s');
      assert forall j :: j != i ==> (InsideAt(s', j) <==> InsideAt(s, j));
      assert !s'.callers[i].Outside? ==> InsideAt(s', i);
      assert !s.callers[i].Outside? ==> InsideAt(s, i);
    }
  }

  lemma StepTimes(s: System, s': System)
    requires Exclusive(s) && TimesInOrder(s) && Step(s, s')
    ensures TimesInOrder(s') && NotBefore(s.shared.lastSyncAt, s'.shared.lastSyncAt)
  {
    if Tick(s, s') {
      forall j | InsideAt(s', j) ensures InsideAt(s, j) {
      }
    } else {
      var i: nat :| CallerStep(s, i, s');
      assert s.callers[i].Outside? || InsideAt(s, i);
      forall j | InsideAt(s', j) && s'.callers[j].Completed?
        ensures s'.callers[j].at <= s'.shared.clock && NotBefore(s'.shared.lastSyncAt, Some(s'.callers[j].at))
      {
        assert j == i || InsideAt(s, j);
      }
    }
  }

  // Over all interleavings at most one caller is inside, and the flag is clear when nobody is.
  lemma {:induction false} OneAtATime(trace: seq<System>, n: nat)
    requires Interleaving(trace) && n < |trace|
    ensures Exclusive(trace[n]) && TimesInOrder(trace[n])
  {
    if n > 0 {
      OneAtATime(trace, n - 1);
      assert StepAt(trace, n - 1);
      StepExclusive(trace[n - 1], trace[n]);
      StepTimes(trace[n - 1], trace[n]);
    }
  }

  // The time of the last success never decreases.
  lemma {:induction false} LastNeverDecreases(trace: seq<System>, m: nat, n: nat)
    requires Interleaving(trace) && m <= n < |trace|
    ensures NotBefore(trace[m].shared.lastSyncAt, trace[n].shared.lastSyncAt)
  {
    if m < n {
      LastNeverDecreases(trace, m, n - 1);
      OneAtATime(trace, n - 1);
      assert StepAt(trace, n - 1);
      StepTimes(trace[n - 1], trace[n]);
    }
  }

  // A time of success that is known was recorded by a caller that completed successfully at that very time, alone
  // inside, at some step before.
  lemma {:induction false} LastFromSuccess(trace: seq<System>, n: nat) returns (k: nat, i: nat)
    requires Interleaving(trace) && n < |trace| && trace[n].shared.lastSyncAt.Some?
    ensures k < n && InsideAt(trace[k], i) && trace[k].callers[i] == Completed(true, trace[n].shared.lastSyncAt.value)
    ensures forall j :: InsideAt(trace[k], j) ==> j == i
  {
    assert StepAt(trace, n - 1);
    var s, s' := trace[n - 1], trace[n];
    if s.shared.lastSyncAt == s'.shared.lastSyncAt {
      k, i := LastFromSuccess(trace, n - 1);
    } else {
      OneAtATime(trace, n - 1);
      i :| CallerStep(s, i, s');
      k := n - 1;
      assert InsideAt(s, i);
    }
  }

  // What one caller may count on while it makes no step itself.
  lemma OthersMeanwhile(s: System, s': System, i: nat)
    requires Exclusive(s) && TimesInOrder(s) && Step(s, s') && i < |s.callers|
    requires Tick(s, s') || exists j: nat :: j != i && CallerStep(s, j, s')
    ensures |s'.callers| == |s.callers| && s'.callers[i] == s.callers[i]
    ensures Meanwhile(InsideAt(s, i), s.shared, s'.shared)
  {
    StepTimes(s, s');
    if !Tick(s, s') {
      var j: nat :| j != i && CallerStep(s, j, s');
      assert !s.callers[j].Outside? ==> InsideAt(s, j);
    }
  }

  // In every interleaving each caller performs its own steps while the others act in between.
  lemma {:induction false} CallerPerforms(trace: seq<System>, n: nat, i: nat) returns (moments: seq<Moment>)
    requires Interleaving(trace) && n < |trace| && i < |trace[0].callers|
    ensures |trace[n].callers| == |trace[0].callers|
    ensures Performs(Outside, trace[0].shared, moments, trace[n].callers[i], trace[n].shared)
  {
    hide SyncStep, Performs, Meanwhile;
    if n == 0 {
      PerformsNone(trace[0].shared);
      moments := [];
    } else {
      var before := CallerPerforms(trace, n - 1, i);
      var s, s' := trace[n - 1], trace[n];
      assert StepAt(trace, n - 1);
      OneAtATime(trace, n - 1);
      OneAtATime(trace, n);
      if CallerStep(s, i, s') {
        var m := Moment(s.callers[i], s.shared, s'.callers[i], s'.shared);
        PerformsMore(Outside, trace[0].shared, before, m);
        moments := before + [m];
      } else {
        OthersMeanwhile(s, s', i);
        PerformsLater(Outside, trace[0].shared, before, s.callers[i], s.shared, s'.shared);
        moments := before;
      }
    }
  }

  lemma PerformsNone(start: Shared)
    requires start.lastSyncAt.None?
    ensures Performs(Outside, start, [], Outside, start)
  {
  }
}
