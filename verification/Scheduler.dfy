// The schedule and the lock of the application (internal/application/cs/app.go), as one goroutine sees them while
// others run.
module Scheduler {
  import opened Wrappers
  import opened SyncLock

  const TWO_63: int := 0x8000_0000_0000_0000

  // int64 arithmetic
  function Wrap64(x: int): int {
    (x + TWO_63) % (2 * TWO_63) - TWO_63
  }

  // time.Time.Sub saturates.
  function Saturate64(x: int): int {
    if x >= TWO_63 then TWO_63 - 1 else if x < -TWO_63 then -TWO_63 else x
  }

  // How far the source moves a schedule that is `elapsed` behind.
  function AdvanceBy(elapsed: int, interval: int): int
    requires 0 <= elapsed && 0 < interval
  {
    Wrap64(Wrap64(Saturate64(elapsed) / interval + 1) * interval)
  }

  // The least number of whole intervals that is more than `elapsed`.
  function NextMultiple(elapsed: int, interval: int): (r: int)
    requires 0 <= elapsed && 0 < interval
    ensures elapsed < r <= elapsed + interval
  {
    (elapsed / interval + 1) * interval
  }

  lemma WrapExact(x: int)
    requires 0 <= x
    ensures Wrap64(x) < TWO_63 && (Wrap64(x) == x <==> x < TWO_63)
  {
  }

  // The 64-bit computation is exact precisely when its result fits.
  lemma AdvanceByExact(elapsed: int, interval: int)
    requires 0 <= elapsed && 0 < interval < TWO_63
    ensures AdvanceBy(elapsed, interval) == NextMultiple(elapsed, interval) <==>
            NextMultiple(elapsed, interval) < TWO_63
  {
    hide Wrap64;
    var missed := Saturate64(elapsed) / interval + 1;
    DivBound(Saturate64(elapsed), interval);
    WrapExact(missed);
    MulBound(missed, interval);
    WrapSmaller(Wrap64(missed) * interval);
    if elapsed < TWO_63 && missed < TWO_63 {
      WrapExact(missed * interval);
    }
  }

  lemma WrapSmaller(x: int)
    ensures Wrap64(x) < TWO_63
  {
  }

  lemma DivBound(x: int, y: int)
    requires 0 <= x && 0 < y
    ensures 0 <= x / y <= x
  {
    assert x == y * (x / y) + x % y;
    if x / y > x {
      MulBound(x / y, y);
      assert false;
    }
  }

  lemma MulBound(x: int, y: int)
    requires 0 <= x && 0 < y
    ensures x <= x * y
  {
  }

  // The k-th time of a schedule.
  function GridPoint(epoch: int, interval: int, k: int): int {
    epoch + k * interval
  }

  ghost predicate OnGrid(epoch: int, interval: int, at: int) {
    exists k: int :: k >= 0 && at == GridPoint(epoch, interval, k)
  }

  // An advance stays on the grid, passes `now`, and stops at the first point that does.
  lemma AdvanceOnGrid(epoch: int, interval: int, at: int, now: int)
    requires 0 < interval && OnGrid(epoch, interval, at) && at <= now
    ensures var to := at + NextMultiple(now - at, interval);
            OnGrid(epoch, interval, to) && to - interval <= now < to && at + interval <= to
  {
    var k: int :| k >= 0 && at == GridPoint(epoch, interval, k);
    var missed := (now - at) / interval + 1;
    assert missed >= 1 && missed * interval >= interval by {
      DivBound(now - at, interval);
    }
    assert at + missed * interval == GridPoint(epoch, interval, k + missed);
  }

  // Two times of one schedule are whole intervals apart.
  lemma GridApart(epoch: int, interval: int, a: int, b: int)
    requires 0 < interval && OnGrid(epoch, interval, a) && OnGrid(epoch, interval, b)
    ensures a < b ==> a + interval <= b
  {
    var j: int :| j >= 0 && a == GridPoint(epoch, interval, j);
    var k: int :| k >= 0 && b == GridPoint(epoch, interval, k);
    if j < k {
      assert b - a == (k - j) * interval;
      MulBound(k - j - 1, interval);
    } else {
      assert a - b == (j - k) * interval;
    }
  }

  lemma GridFromEpoch(epoch: int, interval: int, at: int)
    requires 0 < interval && OnGrid(epoch, interval, at)
    ensures epoch <= at
  {
  }

  // The steps of a call that is rejected.
  lemma Rejected(start: Shared, found: Shared) returns (moments: seq<Moment>)
    requires Meanwhile(false, start, found) && found.synchronizing
    ensures Performs(Outside, start, moments, Outside, found)
    ensures |moments| == 1 && Reject(Outside, moments[0].before, Outside, found)
  {
    moments := [Moment(Outside, found, Outside, found)];
    PerformsLater(Outside, start, [], Outside, found, found);
    PerformsMore(Outside, start, [], moments[0]);
  }

  // The steps of a call that goes through: it enters, is done, records, and leaves.
  lemma Passed(
    start: Shared, found: Shared, entered: Shared, done: Shared, advanced: Shared, ready: Shared, recorded: Shared,
    held: Shared, end: Shared, success: bool)
    returns (moments: seq<Moment>)
    requires Meanwhile(false, start, found) && !found.synchronizing && entered == found.(synchronizing := true)
    requires Meanwhile(true, entered, done) && Meanwhile(true, done, advanced) && Meanwhile(true, advanced, ready)
    requires recorded == ready.(lastSyncAt := if success then Some(done.clock) else ready.lastSyncAt)
    requires Meanwhile(true, recorded, held) && end == held.(synchronizing := false)
    ensures Performs(Outside, start, moments, Outside, end) && |moments| == 4
    ensures Enter(Outside, moments[0].before, Running, moments[0].after)
    ensures Complete(Running, moments[1].before, Completed(success, done.clock), moments[1].after)
    ensures Record(Completed(success, done.clock), moments[2].before, Leaving, moments[2].after)
    ensures Leave(Leaving, moments[3].before, Outside, end)
  {
    var completed := Completed(success, done.clock);
    var m0, m1 := Moment(Outside, found, Running, entered), Moment(Running, done, completed, done);
    var m2, m3 := Moment(completed, ready, Leaving, recorded), Moment(Leaving, held, Outside, end);
    assert Performs(Outside, start, [], Outside, found);
    hide Performs;
    PerformsMore(Outside, start, [], m0);
    PerformsLater(Outside, start, [] + [m0], Running, entered, done);
    PerformsMore(Outside, start, [] + [m0], m1);
    PerformsLater(Outside, start, [] + [m0] + [m1], completed, done, ready);
    PerformsMore(Outside, start, [] + [m0] + [m1], m2);
    PerformsLater(Outside, start, [] + [m0] + [m1] + [m2], Leaving, recorded, held);
    PerformsMore(Outside, start, [] + [m0] + [m1] + [m2], m3);
    moments := [] + [m0] + [m1] + [m2] + [m3];
  }

  // The target of an atomic.Pointer: compare-and-swap compares references, not times.
  class Instant {
    const at: int

    constructor (at: int)
      ensures this.at == at
    {
      this.at := at;
    }
  }

  datatype Outcome = InProgress | Failed | Synchronized

  class Application {
    const interval: int
    // the first scheduled time
    const epoch: int
    var clock: int
    var synchronizing: bool
    var lastSyncAt: Option<int>
    var nextSyncAt: Instant?
    // the goroutine whose calls are modelled is between taking and releasing the flag
    var inside: bool
    // its own successful swaps
    ghost var swaps: nat

    ghost predicate Valid()
      reads this
    {
      && 0 < interval && clock - epoch + interval < TWO_63
      && (inside ==> synchronizing)
      && (lastSyncAt.Some? ==> lastSyncAt.value <= clock)
      && (nextSyncAt != null ==> OnGrid(epoch, interval, nextSyncAt.at))
    }

    ghost function State(): Shared
      reads this
    {
      Shared(synchronizing, lastSyncAt, clock)
    }

    // What every step of every goroutine does to the schedule: nothing, or a later time of the same grid.
    static ghost predicate Moves(a: Instant?, b: Instant?) {
      b == a || (b != null && (a != null ==> a.at < b.at))
    }

    // What the other goroutines can have done since this one last looked. The flag keeps them off the time of the
    // last success, and nobody else clears it.
    method Others()
      requires Valid()
      modifies this`clock, this`synchronizing, this`lastSyncAt, this`nextSyncAt
      ensures Valid() && Meanwhile(inside, old(State()), State()) && Moves(old(nextSyncAt), nextSyncAt)
    {
      hide GridPoint;
      var time: int, k: int := *, *;
      if clock <= time && time - epoch + interval < TWO_63 {
        clock := time;
      }
      var at := GridPoint(epoch, interval, k);
      if 0 <= k && (nextSyncAt == null || nextSyncAt.at < at) {
        nextSyncAt := new Instant(at);
      }
      if !inside {
        synchronizing := *;
        var completed: int := *;
        if completed <= clock && NotBefore(lastSyncAt, Some(completed)) {
          lastSyncAt := Some(completed);
        }
      }
    }

    method Load() returns (at: Instant?)
      requires Valid()
      modifies this`clock, this`synchronizing, this`lastSyncAt, this`nextSyncAt
      ensures Valid() && Meanwhile(inside, old(State()), State()) && Moves(old(nextSyncAt), nextSyncAt)
      ensures at == nextSyncAt
    {
      Others();
      at := nextSyncAt;
    }

    // `found` is what is stored at the moment of the comparison.
    method CompareAndSwap(expected: Instant, desired: Instant) returns (ok: bool, ghost found: Instant?)
      requires Valid() && OnGrid(epoch, interval, desired.at) && expected.at < desired.at
      modifies this`clock, this`synchronizing, this`lastSyncAt, this`nextSyncAt, this`swaps
      ensures Valid() && Meanwhile(inside, old(State()), State())
      ensures Moves(old(nextSyncAt), found) && Moves(found, nextSyncAt)
      ensures ok == (found == expected) && nextSyncAt == if ok then desired else found
      ensures swaps == if ok then old(swaps) + 1 else old(swaps)
    {
      Others();
      found := nextSyncAt;
      ok := nextSyncAt == expected;
      if ok {
        nextSyncAt, swaps := desired, swaps + 1;
      }
    }

    // The next time after `now`. While others move the schedule too, it only moves forward on its grid; a swap of
    // this caller puts it on the first grid point after `now`; and every failed swap has brought it nearer to `now`
    // by an interval or more, so the loop ends.
    method AdvanceNextSyncAt(now: int) returns (next: Option<int>, ghost failures: nat)
      requires Valid() && now <= clock
      modifies this`clock, this`synchronizing, this`lastSyncAt, this`nextSyncAt, this`swaps
      ensures Valid() && Meanwhile(inside, old(State()), State()) && Moves(old(nextSyncAt), nextSyncAt)
      ensures next.None? ==> nextSyncAt == null && old(nextSyncAt) == null
      ensures next.Some? ==>
                now < next.value && OnGrid(epoch, interval, next.value) &&
                nextSyncAt != null && nextSyncAt.at == next.value
      ensures swaps <= old(swaps) + 1
      ensures swaps > old(swaps) ==> next.Some? && next.value - interval <= now
      ensures old(nextSyncAt) != null && failures > 0 ==>
                (failures - 1) * interval <= now - old(nextSyncAt).at
    {
      failures := 0;
      ghost var start := if nextSyncAt == null then epoch else nextSyncAt.at;
      ghost var low := start;
      while true
        invariant Valid() && now <= clock && Meanwhile(inside, old(State()), State())
        invariant Moves(old(nextSyncAt), nextSyncAt)
        invariant swaps == old(swaps)
        invariant nextSyncAt != null ==> low <= nextSyncAt.at
        invariant failures > 0 ==> nextSyncAt != null
        invariant low == start + failures * interval
        invariant failures > 0 ==> start + (failures - 1) * interval <= now
        decreases now - low
      {
        var loaded := Load();
        if loaded == null {
          return None, failures;
        }
        GridFromEpoch(epoch, interval, loaded.at);
        if loaded.at > now {
          return Some(loaded.at), failures;
        }
        var elapsed := now - loaded.at;
        AdvanceOnGrid(epoch, interval, loaded.at, now);
        AdvanceByExact(elapsed, interval);
        var advanced := new Instant(loaded.at + AdvanceBy(elapsed, interval));
        var ok;
        ghost var found;
        ok, found := CompareAndSwap(loaded, advanced);
        if ok {
          return Some(advanced.at), failures;
        }
        GridApart(epoch, interval, loaded.at, found.at);
        failures, low := failures + 1, low + interval;
      }
    }

    // The compare-and-swap of the flag from false to true; `found` is what is there at the moment of the comparison.
    method TakeFlag() returns (ok: bool, ghost found: Shared)
      requires Valid() && !inside
      modifies this`clock, this`synchronizing, this`lastSyncAt, this`nextSyncAt, this`inside
      ensures Valid() && Meanwhile(false, old(State()), found) && Moves(old(nextSyncAt), nextSyncAt)
      ensures ok == !found.synchronizing && inside == ok && State() == found.(synchronizing := true)
    {
      Others();
      found := State();
      ok := !synchronizing;
      if ok {
        synchronizing, inside := true, true;
      }
    }

    // One call of Sync; whether the synchroniser succeeds is an input. `moments` are its steps: one that finds the flag
    // set is rejected and changes nothing; any other one enters, completes at `completedAt`, records a success, and
    // leaves.
    method Sync(success: bool)
      returns (outcome: Outcome, ghost moments: seq<Moment>, ghost completedAt: int)
      requires Valid() && !inside
      modifies this
      ensures Valid() && !inside && Performs(Outside, old(State()), moments, Outside, State())
      ensures outcome.InProgress? ==>
                |moments| == 1 && Reject(Outside, moments[0].before, Outside, State()) && swaps == old(swaps)
      ensures !outcome.InProgress? ==>
                outcome == (if success then Synchronized else Failed) && |moments| == 4 &&
                Enter(Outside, moments[0].before, Running, moments[0].after) &&
                Complete(Running, moments[1].before, Completed(success, completedAt), moments[1].after) &&
                Record(Completed(success, completedAt), moments[2].before, Leaving, moments[2].after) &&
                Leave(Leaving, moments[3].before, Outside, State())
      ensures !outcome.InProgress? && old(nextSyncAt) != null ==>
                nextSyncAt != null && completedAt < nextSyncAt.at
    {
      hide Performs, OnGrid, GridPoint, NextMultiple, AdvanceBy;
      ghost var start := State();
      var taken;
      ghost var found;
      taken, found := TakeFlag();
      completedAt := clock;
      if !taken {
        moments := Rejected(start, found);
        return InProgress, moments, completedAt;
      }
      ghost var entered := State();
      Others();
      ghost var done := State();
      var at := clock;
      completedAt := at;
      var _, _ := AdvanceNextSyncAt(at);
      ghost var advanced := State();
      Others();
      ghost var ready := State();
      if success {
        lastSyncAt := Some(at);
      }
      ghost var recorded := State();
      Others();
      ghost var held := State();
      synchronizing, inside := false, false;
      moments := Passed(start, found, entered, done, advanced, ready, recorded, held, State(), success);
      outcome := if success then Synchronized else Failed;
    }

    method LastSyncAt() returns (at: Option<int>)
      requires Valid() && !inside
      modifies this`clock, this`synchronizing, this`lastSyncAt, this`nextSyncAt
      ensures Valid() && at == lastSyncAt && Meanwhile(false, old(State()), State())
    {
      Others();
      at := lastSyncAt;
    }

    method NextSyncAt() returns (next: Option<int>)
      requires Valid() && !inside
      modifies this`clock, this`synchronizing, this`lastSyncAt, this`nextSyncAt, this`swaps
      ensures Valid() && Moves(old(nextSyncAt), nextSyncAt)
      ensures next.Some? ==> old(clock) < next.value && OnGrid(epoch, interval, next.value)
      ensures next.None? ==> old(nextSyncAt) == null
    {
      Others();
      ghost var failures;
      next, failures := AdvanceNextSyncAt(clock);
    }
  }
}
