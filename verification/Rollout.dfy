// The queue of service updates as a value, and the pure substitution that it stands for.
module Rollout {
  import opened Docker
  import opened Rotation

  type Queue = map<ServiceId, map<SecretId, Replacement>>

  function Enqueued(q: Queue, s: ServiceId, id: SecretId, replacement: Replacement): Queue {
    q[s := (if s in q then q[s] else map[])[id := replacement]]
  }

  lemma EnqueuedEmpty(q: Queue, s: ServiceId, id: SecretId, replacement: Replacement)
    ensures s !in q ==> Enqueued(q[s := map[]], s, id, replacement) == Enqueued(q, s, id, replacement)
  {
  }

  ghost predicate Queued(q: Queue, s: ServiceId, id: SecretId) {
    s in q && id in q[s]
  }

  function SwapOne(replacements: map<SecretId, Replacement>, r: Ref): Ref {
    if r.secretId in replacements then
      r.(secretId := replacements[r.secretId].id, secretName := replacements[r.secretId].name)
    else r
  }

  // One pass of step 4 over the references of one service.
  function Swap(replacements: map<SecretId, Replacement>, refs: seq<Ref>): (m: seq<Ref>)
    ensures |m| == |refs|
    ensures forall k :: 0 <= k < |refs| ==> m[k] == SwapOne(replacements, refs[k])
  {
    seq(|refs|, k requires 0 <= k < |refs| => SwapOne(replacements, refs[k]))
  }

  ghost predicate HasMove(w: World, want: map<string, Want>, run: map<string, Action>, i: SecretId) {
    i in w.secrets && w.secrets[i].logicalPath in want && HasTarget(w, run, w.secrets[i].logicalPath)
  }

  ghost function MoveOf(w: World, want: map<string, Want>, run: map<string, Action>, i: SecretId): Replacement
    requires HasMove(w, want, run, i)
  {
    Target(w, want, run, w.secrets[i].logicalPath)
  }

  ghost predicate NeedsMove(w: World, want: map<string, Want>, run: map<string, Action>, i: SecretId) {
    HasMove(w, want, run, i) && MoveOf(w, want, run, i).id != i
  }

  // Every queued replacement is one that some reference of that service needs.
  ghost predicate QueueSound(w: World, want: map<string, Want>, run: map<string, Action>, q: Queue) {
    forall s :: s in q ==>
      s in w.services && q[s] != map[] &&
      forall i :: i in q[s] ==>
        RefersTo(w.services[s].refs, i) && NeedsMove(w, want, run, i) && q[s][i] == MoveOf(w, want, run, i)
  }

  // Every reference that has to move is queued.
  ghost predicate QueueComplete(w: World, want: map<string, Want>, run: map<string, Action>, q: Queue) {
    forall s, k :: s in w.services && 0 <= k < |w.services[s].refs| &&
                   NeedsMove(w, want, run, w.services[s].refs[k].secretId) ==>
                   Queued(q, s, w.services[s].refs[k].secretId)
  }

  // The versions that a run created are new.
  ghost predicate RunFresh(w: World, run: map<string, Action>) {
    forall p :: p in run ==>
      (run[p].Rotated? ==> run[p].version !in w.secrets) && (run[p].Created? ==> run[p].parent !in w.secrets)
  }

  lemma MoveStays(w: World, want: map<string, Want>, run: map<string, Action>, p: string, a: Action, i: SecretId)
    requires NeedsMove(w, want, run, i) && p !in run
    ensures NeedsMove(w, want, run[p := a], i) && MoveOf(w, want, run[p := a], i) == MoveOf(w, want, run, i)
  {
  }

  lemma SoundGrows(w: World, want: map<string, Want>, run: map<string, Action>, q: Queue, p: string, a: Action)
    requires QueueSound(w, want, run, q) && p !in run
    ensures QueueSound(w, want, run[p := a], q)
  {
    hide MoveOf, HasTarget;
    forall s, i | s in q && i in q[s]
      ensures NeedsMove(w, want, run[p := a], i) && q[s][i] == MoveOf(w, want, run[p := a], i)
    {
      MoveStays(w, want, run, p, a, i);
    }
  }

  // A queued service: swapping its references is the pure substitution.
  lemma SwapIsMove(w: World, want: map<string, Want>, run: map<string, Action>, q: Queue, s: ServiceId)
    requires QueueSound(w, want, run, q) && QueueComplete(w, want, run, q) && RefsResolve(w) && RunFresh(w, run)
    requires s in q
    ensures Swap(q[s], w.services[s].refs) == MoveAll(w, want, run, w.services[s].refs)
  {
    var refs := w.services[s].refs;
    forall k | 0 <= k < |refs| ensures SwapOne(q[s], refs[k]) == Move(w, want, run, refs[k]) {
      assert Resolves(w, refs[k]);
      if NeedsMove(w, want, run, refs[k].secretId) {
        assert Queued(q, s, refs[k].secretId);
      }
    }
  }

  // A queued service has something to move.
  lemma QueuedMoves(w: World, want: map<string, Want>, run: map<string, Action>, q: Queue, s: ServiceId)
    requires QueueSound(w, want, run, q) && s in q
    ensures MoveAll(w, want, run, w.services[s].refs) != w.services[s].refs
  {
  }

  // A service that is not queued is left as it is by the pure substitution, too.
  lemma UnqueuedStays(w: World, want: map<string, Want>, run: map<string, Action>, q: Queue, s: ServiceId)
    requires QueueComplete(w, want, run, q) && RefsResolve(w) && RunFresh(w, run)
    requires s in w.services && s !in q
    ensures MoveAll(w, want, run, w.services[s].refs) == w.services[s].refs
  {
  }

  // A replacement is never itself a key of the queue.
  lemma ReplacementNotKey(
    w: World, want: map<string, Want>, run: map<string, Action>, q: Queue, s: ServiceId, i: SecretId)
    requires QueueSound(w, want, run, q) && NamesUnique(w) && RunFresh(w, run)
    requires s in q && i in q[s]
    ensures q[s][i].id !in q[s]
  {
    assert NeedsMove(w, want, run, i);
    var p := w.secrets[i].logicalPath;
    if run[p].Kept? {
      assert MoveOf(w, want, run, q[s][i].id).id == q[s][i].id;
    }
  }

  // A second pass over swapped references changes nothing.
  lemma SwapTwice(
    w: World, want: map<string, Want>, run: map<string, Action>, q: Queue, s: ServiceId, refs: seq<Ref>)
    requires QueueSound(w, want, run, q) && NamesUnique(w) && RunFresh(w, run)
    requires s in q
    ensures Swap(q[s], Swap(q[s], refs)) == Swap(q[s], refs)
  {
    forall k | 0 <= k < |refs| ensures SwapOne(q[s], SwapOne(q[s], refs[k])) == SwapOne(q[s], refs[k]) {
      if refs[k].secretId in q[s] {
        ReplacementNotKey(w, want, run, q, s, refs[k].secretId);
      }
    }
  }
}
