// Step 4: the resumable rollout of the queued service updates (internal/sync/step4_apply_service_updates.go).
module ApplyUpdates {
  import opened Docker
  import opened Rotation
  import opened Rollout
  import opened Stages
  import opened Payload
  import opened Planning

  // The state when exactly the services in `updated` have been rolled out.
  ghost predicate Half(
    w: World, want: map<string, Want>, run: map<string, Action>, w3: World, w': World, updated: set<ServiceId>)
  {
    w'.secrets == w3.secrets && w'.serial == w3.serial && w'.now == w3.now &&
    w'.services.Keys == w.services.Keys && w3.services == w.services && updated <= w.services.Keys &&
    forall s :: s in w.services ==>
      w'.services[s] ==
      if s in updated then Service(w.services[s].version + 1, MoveAll(w, want, run, w.services[s].refs))
      else w.services[s]
  }

  // One more service rolled out.
  lemma HalfMore(
    w: World, want: map<string, Want>, run: map<string, Action>, w3: World, w': World, updated: set<ServiceId>,
    s: ServiceId)
    requires WellFormed(w) && Staged(w, want, run, w3) && Half(w, want, run, w3, w', updated)
    requires WellFormed(w') && s in w.services && s !in updated
    ensures w'.services[s].version == w.services[s].version
    ensures var w'' := PutService(w', s, MoveAll(w, want, run, w.services[s].refs));
            Half(w, want, run, w3, w'', updated + {s}) && WellFormed(w'')
  {
    var refs := MoveAll(w, want, run, w.services[s].refs);
    forall k | 0 <= k < |refs| ensures Resolves(w', refs[k]) {
      MovedResolve(w, want, run, w3, s, k);
      assert Resolves(w3, refs[k]);
    }
    PutKeepsWellFormed(w', s, refs);
  }

  // Once every queued service is rolled out, all references are moved.
  lemma HalfDone(
    w: World, want: map<string, Want>, run: map<string, Action>, w3: World, w': World, q: Queue)
    requires Half(w, want, run, w3, w', q.Keys) && WellFormed(w) && RunFresh(w, run)
    requires QueueSound(w, want, run, q) && QueueComplete(w, want, run, q)
    ensures Moved(w, want, run, w')
  {
    hide MoveAll, QueueSound, QueueComplete;
    forall s | s in w.services
      ensures s in w'.services && w'.services[s] == MovedService(w, want, run, w.services[s])
    {
      if s in q {
        QueuedMoves(w, want, run, q, s);
      } else {
        UnqueuedStays(w, want, run, q, s);
      }
    }
  }

  // What a task may hold: the loaded references, or what one or more passes made of them.
  ghost predicate TaskHolds(refs: seq<Ref>, loaded: seq<Ref>, moved: seq<Ref>) {
    refs == loaded || refs == moved
  }

  lemma HeldSwap(
    w: World, want: map<string, Want>, run: map<string, Action>, q: Queue, s: ServiceId, refs: seq<Ref>)
    requires WellFormed(w) && RunFresh(w, run)
    requires QueueSound(w, want, run, q) && QueueComplete(w, want, run, q) && s in q
    requires TaskHolds(refs, w.services[s].refs, MoveAll(w, want, run, w.services[s].refs))
    ensures Swap(q[s], refs) == MoveAll(w, want, run, w.services[s].refs)
  {
    SwapIsMove(w, want, run, q, s);
    SwapTwice(w, want, run, q, s, w.services[s].refs);
  }

  // The services whose update went through, in order.
  function Delivered(calls: seq<Call>): seq<ServiceId> {
    if calls == [] then []
    else
      var last := calls[|calls| - 1];
      Delivered(calls[..|calls| - 1]) + if last.UpdateCall? && last.outcome == Done then [last.service] else []
  }

  lemma DeliveredMore(before: seq<Call>, call: Call)
    ensures Delivered(before + [call]) ==
            Delivered(before) + if call.UpdateCall? && call.outcome == Done then [call.service] else []
  {
  }

  // How many update requests have failed since.
  ghost function FailedUpdates(before: seq<Call>, after: seq<Call>): nat
    decreases |after|
  {
    if |after| <= |before| then 0
    else
      var last := after[|after| - 1];
      FailedUpdates(before, after[..|after| - 1]) + if last.UpdateCall? && last.outcome != Done then 1 else 0
  }

  lemma FailedMore(before: seq<Call>, after: seq<Call>, call: Call)
    requires Safe(before, after)
    ensures FailedUpdates(before, after + [call]) ==
            FailedUpdates(before, after) + if call.UpdateCall? && call.outcome != Done then 1 else 0
  {
  }

  lemma FailedNone(journal: seq<Call>)
    ensures FailedUpdates(journal, journal) == 0
  {
  }

  lemma {:induction false} FailedJoin(a: seq<Call>, b: seq<Call>, c: seq<Call>)
    requires a <= b <= c
    ensures FailedUpdates(a, c) == FailedUpdates(a, b) + FailedUpdates(b, c)
    decreases |c|
  {
    if |c| == |b| {
      assert c == b;
    } else {
      FailedJoin(a, b, c[..|c| - 1]);
    }
  }

  lemma {:induction false} CalmNotFailed(before: seq<Call>, after: seq<Call>)
    requires Calm(before, after)
    ensures FailedUpdates(before, after) == 0
    decreases |after|
  {
    if |after| > |before| {
      var less := after[..|after| - 1];
      assert Calm(before, less);
      CalmNotFailed(before, less);
    }
  }

  function Ids(order: seq<ServiceTask>, n: nat): (ids: seq<ServiceId>)
    requires n <= |order|
    ensures |ids| == n
  {
    if n == 0 then [] else Ids(order, n - 1) + [order[n - 1].service.id]
  }

  ghost predicate IsPlanned(call: Call, w: World, want: map<string, Want>, run: map<string, Action>) {
    call.UpdateCall? && call.service in w.services &&
    call.refs == MoveAll(w, want, run, w.services[call.service].refs)
  }

  // Every new request sends the planned references of its service.
  ghost predicate Planned(
    before: seq<Call>, after: seq<Call>, w: World, want: map<string, Want>, run: map<string, Action>)
  {
    before <= after && forall k :: |before| <= k < |after| ==> IsPlanned(after[k], w, want, run)
  }

  lemma PlannedMore(
    before: seq<Call>, after: seq<Call>, call: Call, w: World, want: map<string, Want>, run: map<string, Action>)
    requires Planned(before, after, w, want, run) && IsPlanned(call, w, want, run)
    ensures Planned(before, after + [call], w, want, run)
    ensures Safe(before, after + [call])
  {
  }

  // The work that step 3 has queued, and the state that it left.
  ghost predicate Queued3(
    w: World, want: map<string, Want>, run: map<string, Action>, q: Queue, w3: World)
  {
    WellFormed(w) && Staged(w, want, run, w3) && RunFresh(w, run) &&
    QueueSound(w, want, run, q) && QueueComplete(w, want, run, q)
  }

  lemma QueuedBefore(w: World, want: map<string, Want>, w3: World, c: Work)
    requires Queuing(w, want, w3, c)
    ensures Queued3(w, want, c.run, c.queue, w3) && Half(w, want, c.run, w3, w3, {}) && WellFormed(w3)
  {
  }

  // The tasks hold loaded or moved references.
  ghost predicate TasksHold(payload: SyncPayload, w: World, want: map<string, Want>)
    reads payload`tasks, payload`run, payload.tasks.Values
  {
    forall s :: s in payload.tasks ==>
      s in w.services && payload.tasks[s].service.version == w.services[s].version &&
      TaskHolds(payload.tasks[s].refs, w.services[s].refs, MoveAll(w, want, payload.run, w.services[s].refs))
  }

  ghost function Updated(payload: SyncPayload): set<ServiceId>
    reads payload`position, payload`offset
  {
    set s | s in payload.position && payload.position[s] < payload.offset
  }

  // The first `offset` tasks are rolled out.
  ghost predicate RollingOut(payload: SyncPayload, w: World, want: map<string, Want>, w3: World, w': World)
    reads payload`position, payload`offset, payload`order, payload`run
  {
    payload.offset <= |payload.order| && Half(w, want, payload.run, w3, w', Updated(payload)) && WellFormed(w')
  }

  lemma NextTask(payload: SyncPayload, w: World, want: map<string, Want>, w3: World, w': World)
    requires payload.QueueValid() && TasksHold(payload, w, want)
    requires Queued3(w, want, payload.run, payload.queue, w3) && RollingOut(payload, w, want, w3, w')
    requires payload.offset < |payload.order|
    ensures var task := payload.order[payload.offset];
            var s := task.service.id;
            var moved := MoveAll(w, want, payload.run, w.services[s].refs);
            task in payload.tasks.Values && s in payload.tasks && payload.tasks[s] == task &&
            s in w.services && s !in Updated(payload) &&
            s in payload.position && payload.position[s] == payload.offset &&
            w'.services[s].version == task.service.version && s in w'.services &&
            Swap(task.secrets, task.refs) == moved &&
            Half(w, want, payload.run, w3, PutService(w', s, moved), Updated(payload) + {s}) &&
            WellFormed(PutService(w', s, moved))
  {
    var task := payload.order[payload.offset];
    var s := task.service.id;
    assert payload.tasks[s] == task;
    HeldSwap(w, want, payload.run, payload.queue, s, task.refs);
    HalfMore(w, want, payload.run, w3, w', Updated(payload), s);
  }

  method SwapReferences(task: ServiceTask)
    modifies task`refs
    ensures task.refs == Swap(task.secrets, old(task.refs))
  {
    var secrets: seq<Ref> := [];
    for k := 0 to |task.refs|
      invariant |secrets| == k
      invariant forall j :: 0 <= j < k ==> secrets[j] == SwapOne(task.secrets, task.refs[j])
    {
      var r := task.refs[k];
      if r.secretId !in task.secrets {
        secrets := secrets + [r];
        continue;
      }
      var replacement := task.secrets[r.secretId];
      secrets := secrets + [r.(secretId := replacement.id, secretName := replacement.name)];
    }
    task.refs := secrets;
  }

  // Overwriting the references of one task with the planned ones keeps what the tasks hold.
  method SwapTask(payload: SyncPayload, task: ServiceTask, ghost w: World, ghost want: map<string, Want>)
    requires payload.QueueValid() && TasksHold(payload, w, want)
    requires task.service.id in payload.tasks && payload.tasks[task.service.id] == task
    requires task.service.id in w.services
    requires Swap(task.secrets, task.refs) == MoveAll(w, want, payload.run, w.services[task.service.id].refs)
    modifies task`refs
    ensures payload.QueueValid() && TasksHold(payload, w, want)
    ensures task.refs == MoveAll(w, want, payload.run, w.services[task.service.id].refs)
  {
    SwapReferences(task);
    assert forall s :: s in payload.tasks && s != task.service.id ==> payload.tasks[s] != task;
  }

  lemma RolledOn(
    payload: SyncPayload, w: World, want: map<string, Want>, w3: World, w': World, updated: set<ServiceId>,
    s: ServiceId)
    requires payload.QueueValid() && 0 < payload.offset <= |payload.order|
    requires s in payload.position && payload.position[s] == payload.offset - 1
    requires updated == set t | t in payload.position && payload.position[t] < payload.offset - 1
    requires Half(w, want, payload.run, w3, w', updated + {s}) && WellFormed(w')
    ensures RollingOut(payload, w, want, w3, w')
  {
    assert Updated(payload) == updated + {s} by {
      forall t | t in Updated(payload) ensures t in updated + {s} {
        assert payload.order[payload.position[t]].service.id == t;
        assert payload.order[payload.position[s]].service.id == s;
      }
    }
  }

  lemma UpdatedIs(payload: SyncPayload)
    ensures Updated(payload) == set t | t in payload.position && payload.position[t] < payload.offset
  {
  }

  lemma PlannedCall(s: ServiceId, w: World, want: map<string, Want>, run: map<string, Action>, call: Call)
    requires s in w.services && call.UpdateCall? && call.service == s
    requires call.refs == MoveAll(w, want, run, w.services[s].refs)
    ensures IsPlanned(call, w, want, run)
  {
  }

  // One attempt for the first task that is not rolled out yet.
  method UpdateNext(
    payload: SyncPayload, engine: Swarm, ghost w: World, ghost want: map<string, Want>, ghost w3: World)
    returns (ok: bool, ghost call: Call)
    requires payload.QueueValid() && TasksHold(payload, w, want)
    requires Queued3(w, want, payload.run, payload.queue, w3) && RollingOut(payload, w, want, w3, engine.world)
    requires payload.offset < |payload.order|
    modifies payload`offset, payload.tasks.Values, engine`world, engine`journal, engine`faults
    ensures payload.QueueValid() && TasksHold(payload, w, want)
    ensures RollingOut(payload, w, want, w3, engine.world)
    ensures payload.offset == old(payload.offset) + if ok then 1 else 0
    ensures engine.journal == old(engine.journal) + [call] && IsPlanned(call, w, want, payload.run)
    ensures call.UpdateCall? && call.service == payload.order[old(payload.offset)].service.id
    ensures ok <==> call.outcome == Done
    ensures ok ==> engine.faults == old(engine.faults)
    ensures !ok ==> engine.faults > old(engine.faults)
  {
    hide *;
    var task := payload.order[payload.offset];
    ghost var s := task.service.id;
    ghost var w', updated := engine.world, Updated(payload);
    UpdatedIs(payload);
    NextTask(payload, w, want, w3, w');
    SwapTask(payload, task, w, want);
    ok := engine.ServiceUpdate(task.service.id, task.service.version, task.refs);
    call := engine.journal[|engine.journal| - 1];
    PlannedCall(s, w, want, payload.run, call);
    if ok {
      payload.offset := payload.offset + 1;
      RolledOn(payload, w, want, w3, engine.world, updated, s);
    }
  }

  // What the requests of step 4 delivered: the queued services, each once, in order.
  ghost predicate DeliveredIs(before: seq<Call>, after: seq<Call>, order: seq<ServiceTask>, from: nat, to: nat)
    requires from <= to <= |order|
  {
    before <= after && Ids(order, from) + Delivered(after[|before|..]) == Ids(order, to)
  }

  lemma DeliveredStart(before: seq<Call>, order: seq<ServiceTask>, n: nat)
    requires n <= |order|
    ensures DeliveredIs(before, before, order, n, n)
  {
  }

  lemma DeliveredStep(
    before: seq<Call>, after: seq<Call>, order: seq<ServiceTask>, from: nat, to: nat, call: Call)
    requires from <= to < |order| && DeliveredIs(before, after, order, from, to)
    requires call.UpdateCall? && call.service == order[to].service.id
    ensures DeliveredIs(before, after + [call], order, from, if call.outcome == Done then to + 1 else to)
  {
    assert (after + [call])[|before|..] == after[|before|..] + [call];
    DeliveredMore(after[|before|..], call);
    assert Ids(order, from) + (Delivered(after[|before|..]) + [call.service]) ==
           Ids(order, from) + Delivered(after[|before|..]) + [call.service];
  }

  // Step 4: it may be run again after a failure and goes on at `offset`.
  method ApplyServiceUpdates(
    payload: SyncPayload, engine: Swarm, ghost w: World, ghost want: map<string, Want>, ghost w3: World)
    returns (ok: bool)
    requires payload.QueueValid() && TasksHold(payload, w, want)
    requires Queued3(w, want, payload.run, payload.queue, w3) && RollingOut(payload, w, want, w3, engine.world)
    requires payload.offset <= |payload.order|
    modifies payload`offset, payload.tasks.Values, engine`world, engine`journal, engine`faults
    ensures payload.QueueValid() && TasksHold(payload, w, want)
    ensures RollingOut(payload, w, want, w3, engine.world)
    ensures old(payload.offset) <= payload.offset <= |payload.order|
    ensures ok ==> payload.offset == |payload.order|
    ensures DeliveredIs(old(engine.journal), engine.journal, payload.order, old(payload.offset), payload.offset)
    ensures Planned(old(engine.journal), engine.journal, w, want, payload.run)
    ensures Safe(old(engine.journal), engine.journal)
    ensures |payload.order| == 0 ==> engine.journal == old(engine.journal)
    ensures FailedUpdates(old(engine.journal), engine.journal) == if ok then 0 else 1
    ensures ok ==> engine.faults == old(engine.faults)
    ensures !ok ==> engine.faults > old(engine.faults)
  {
    hide *;
    ghost var journal := engine.journal;
    FailedNone(journal);
    PlannedStart(journal, w, want, payload.run);
    DeliveredStart(journal, payload.order, payload.offset);
    if |payload.order| == 0 || |payload.order| <= payload.offset {
      return true;
    }
    while payload.offset < |payload.order|
      invariant payload.QueueValid() && TasksHold(payload, w, want)
      invariant RollingOut(payload, w, want, w3, engine.world)
      invariant old(payload.offset) <= payload.offset <= |payload.order|
      invariant DeliveredIs(journal, engine.journal, payload.order, old(payload.offset), payload.offset)
      invariant Planned(journal, engine.journal, w, want, payload.run) && Safe(journal, engine.journal)
      invariant FailedUpdates(journal, engine.journal) == 0
      invariant engine.faults == old(engine.faults)
      decreases |payload.order| - payload.offset
    {
      ghost var before, offset := engine.journal, payload.offset;
      ghost var call;
      ok, call := UpdateNext(payload, engine, w, want, w3);
      PlannedMore(journal, before, call, w, want, payload.run);
      FailedMore(journal, before, call);
      DeliveredStep(journal, before, payload.order, old(payload.offset), offset, call);
      if !ok {
        return false;
      }
    }
    return true;
  }

  lemma PlannedStart(journal: seq<Call>, w: World, want: map<string, Want>, run: map<string, Action>)
    ensures Planned(journal, journal, w, want, run) && Safe(journal, journal)
  {
  }

  lemma {:induction false} DeliveredConcat(a: seq<Call>, b: seq<Call>)
    ensures Delivered(a + b) == Delivered(a) + Delivered(b)
  {
    if b == [] {
      assert a + b == a;
    } else {
      hide Delivered;
      var init, last := b[..|b| - 1], b[|b| - 1];
      DeliveredConcat(a, init);
      DeliveredMore(a + init, last);
      DeliveredMore(init, last);
      assert a + b == (a + init) + [last] && b == init + [last];
      var d := if last.UpdateCall? && last.outcome == Done then [last.service] else [];
      assert Delivered(a) + Delivered(init) + d == Delivered(a) + (Delivered(init) + d);
    }
  }

  lemma DeliveredJoin(
    a: seq<Call>, b: seq<Call>, c: seq<Call>, order: seq<ServiceTask>, from: nat, mid: nat, to: nat)
    requires from <= mid <= to <= |order|
    requires DeliveredIs(a, b, order, from, mid) && DeliveredIs(b, c, order, mid, to)
    ensures DeliveredIs(a, c, order, from, to)
  {
    assert c[|a|..] == b[|a|..] + c[|b|..];
    DeliveredConcat(b[|a|..], c[|b|..]);
  }

  lemma SafeJoin(a: seq<Call>, b: seq<Call>, c: seq<Call>)
    requires Safe(a, b) && Safe(b, c)
    ensures Safe(a, c) && a <= b <= c
  {
  }

  lemma PlannedJoin(
    a: seq<Call>, b: seq<Call>, c: seq<Call>, w: World, want: map<string, Want>, run: map<string, Action>)
    requires Planned(a, b, w, want, run) && Planned(b, c, w, want, run)
    ensures Planned(a, c, w, want, run)
  {
  }

  // The pipeline runs step 4 again on an error, over whatever the last attempt left, up to three times: it takes four
  // failed updates to fail. Whatever fails, every request for a service sends the same references, and the services
  // whose update succeeded are the first `offset` queued ones, each once.
  method ApplyWithRetries(
    payload: SyncPayload, engine: Swarm, ghost w: World, ghost want: map<string, Want>, ghost w3: World)
    returns (ok: bool)
    requires payload.QueueValid() && TasksHold(payload, w, want) && payload.offset == 0
    requires Queued3(w, want, payload.run, payload.queue, w3) && RollingOut(payload, w, want, w3, engine.world)
    modifies payload`offset, payload.tasks.Values, engine`world, engine`journal, engine`faults
    ensures payload.QueueValid() && RollingOut(payload, w, want, w3, engine.world)
    ensures ok ==> payload.offset == |payload.order|
    ensures payload.offset <= |payload.order|
    ensures DeliveredIs(old(engine.journal), engine.journal, payload.order, 0, payload.offset)
    ensures Planned(old(engine.journal), engine.journal, w, want, payload.run)
    ensures Safe(old(engine.journal), engine.journal)
    ensures |payload.order| == 0 ==> engine.journal == old(engine.journal)
    ensures ok ==> FailedUpdates(old(engine.journal), engine.journal) <= 3
    ensures !ok ==> FailedUpdates(old(engine.journal), engine.journal) == 4
    ensures !ok ==> engine.faults > old(engine.faults)
    ensures engine.faults >= old(engine.faults)
  {
    hide *;
    ghost var journal := engine.journal;
    ok := ApplyServiceUpdates(payload, engine, w, want, w3);
    var retries := 0;
    while !ok && retries < 3
      invariant payload.QueueValid() && TasksHold(payload, w, want) && payload.offset <= |payload.order|
      invariant RollingOut(payload, w, want, w3, engine.world)
      invariant ok ==> payload.offset == |payload.order|
      invariant DeliveredIs(journal, engine.journal, payload.order, 0, payload.offset)
      invariant Planned(journal, engine.journal, w, want, payload.run) && Safe(journal, engine.journal)
      invariant |payload.order| == 0 ==> engine.journal == journal
      invariant retries <= 3
      invariant FailedUpdates(journal, engine.journal) == if ok then retries else retries + 1
      invariant !ok ==> engine.faults > old(engine.faults)
      invariant engine.faults >= old(engine.faults)
      decreases 3 - retries
    {
      retries := retries + 1;
      ghost var before, offset := engine.journal, payload.offset;
      ok := ApplyServiceUpdates(payload, engine, w, want, w3);
      DeliveredJoin(journal, before, engine.journal, payload.order, 0, offset, payload.offset);
      PlannedJoin(journal, before, engine.journal, w, want, payload.run);
      SafeJoin(journal, before, engine.journal);
      FailedJoin(journal, before, engine.journal);
    }
  }

  // When every task is rolled out, every service is on its target.
  lemma RolledOut(payload: SyncPayload, w: World, want: map<string, Want>, w3: World, w': World)
    requires payload.QueueValid() && payload.offset == |payload.order|
    requires Queued3(w, want, payload.run, payload.queue, w3) && RollingOut(payload, w, want, w3, w')
    ensures Moved(w, want, payload.run, w') && WellFormed(w')
    ensures w'.secrets == w3.secrets && w'.serial == w3.serial && w'.now == w3.now
  {
    assert Updated(payload) == payload.queue.Keys;
    HalfDone(w, want, payload.run, w3, w', payload.queue);
  }

  lemma RollingStart(payload: SyncPayload, w: World, want: map<string, Want>, w3: World)
    requires payload.QueueValid() && payload.RefsLoaded() && payload.offset == 0
    requires ListsServices(payload.services, w)
    requires Half(w, want, payload.run, w3, w3, {}) && WellFormed(w3)
    ensures TasksHold(payload, w, want) && RollingOut(payload, w, want, w3, w3)
  {
  }
}
