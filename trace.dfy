/**
 * Runs of the engine: a sequence of notifications, timer sweeps and changes of the
 * "Unblocking" setting, replayed on the values of module Debounce, and what a run promises
 * about the unblock action: a quiet path is unblocked once, a path that keeps being written
 * is not unblocked, nothing is unblocked while unblocking is off.
 */
module Trace {

  import opened Debounce

  datatype Step =
    | Notify(path: string, at: int)   // OnChanged for `path` at `at`
    | Tick(at: int)                   // one sweep (OnUnblockTimer) at `at`
    | SetMode(unblock: bool)          // ChangeUnblockMode

  /** The engine's tables and the value of the "Unblocking" setting. */
  datatype World = World(tables: Tables, unblocking: bool)

  /** Where a run ends, and how many times the unblock action was invoked on each path. */
  datatype Run = Run(world: World, calls: multiset<string>)

  /** A freshly constructed engine: both tables empty, and "Unblocking" unset, which reads as on. */
  const Start: World := World(Tables(map[], map[]), true)

  function Apply(w: World, s: Step): Run
  {
    match s
    case Notify(p, at) => Run(w.(tables := Record(w.tables, p, at)), multiset{})
    case Tick(at) =>
      Run(w.(tables := Sweep(w.tables, at, w.unblocking)), multiset(SweepCalls(w.tables, at, w.unblocking)))
    case SetMode(u) => Run(w.(unblocking := u), multiset{})
  }

  function Replay(w: World, steps: seq<Step>): Run
    decreases |steps|
  {
    if steps == [] then Run(w, multiset{})
    else
      var first := Apply(w, steps[0]);
      var rest := Replay(first.world, steps[1..]);
      Run(rest.world, first.calls + rest.calls)
  }

  predicate OnlyTicks(steps: seq<Step>)
  {
    forall i :: 0 <= i < |steps| ==> steps[i].Tick?
  }

  /** Some sweep of `ticks` comes at least `MinElapsedTimeForUnblock` after `t`. */
  predicate SomeTickSettles(ticks: seq<Step>, t: int)
    requires OnlyTicks(ticks)
  {
    exists i :: 0 <= i < |ticks| && ticks[i].at - t >= MinElapsedTimeForUnblock
  }

  // ---------------------------------------------------------------------------------------

  lemma OnlyTicksTail(ticks: seq<Step>)
    requires OnlyTicks(ticks) && ticks != []
    ensures OnlyTicks(ticks[1..])
  {
    forall i | 0 <= i < |ticks[1..]| ensures ticks[1..][i].Tick? { assert ticks[1..][i] == ticks[i + 1]; }
  }

  /** When the first sweep is too early for `t`, a settling sweep must be among the others. */
  lemma SettlesLater(ticks: seq<Step>, t: int)
    requires OnlyTicks(ticks) && ticks != [] && ticks[0].at - t < MinElapsedTimeForUnblock
    ensures OnlyTicks(ticks[1..])
    ensures SomeTickSettles(ticks, t) <==> SomeTickSettles(ticks[1..], t)
  {
    OnlyTicksTail(ticks);
    if SomeTickSettles(ticks, t) {
      var i :| 0 <= i < |ticks| && ticks[i].at - t >= MinElapsedTimeForUnblock;
      assert i != 0 && ticks[1..][i - 1] == ticks[i];
    }
    if SomeTickSettles(ticks[1..], t) {
      var i :| 0 <= i < |ticks[1..]| && ticks[1..][i].at - t >= MinElapsedTimeForUnblock;
      assert ticks[i + 1] == ticks[1..][i];
    }
  }

  /** Sweeps never bring back a path that is not pending, so they never unblock it. */
  lemma {:induction false} AbsentUnderTicks(w: World, p: string, ticks: seq<Step>)
    requires OnlyTicks(ticks) && p !in w.tables.pending
    ensures Replay(w, ticks).calls[p] == 0
    ensures p !in Replay(w, ticks).world.tables.pending
    decreases |ticks|
  {
    if ticks != [] {
      var first := Apply(w, ticks[0]);
      assert p !in SweepCalls(w.tables, ticks[0].at, w.unblocking);
      OnlyTicksTail(ticks);
      AbsentUnderTicks(first.world, p, ticks[1..]);
    }
  }

  /**
   * A pending path that is not processed, swept with unblocking on, is unblocked exactly
   * once if some sweep comes at least 1 s after its start, and never otherwise.
   */
  lemma {:induction false} PendingUnderTicks(w: World, p: string, ticks: seq<Step>)
    requires OnlyTicks(ticks) && w.unblocking
    requires p in w.tables.pending && p !in w.tables.processed
    ensures Replay(w, ticks).calls[p] == if SomeTickSettles(ticks, w.tables.pending[p]) then 1 else 0
    decreases |ticks|
  {
    var t := w.tables.pending[p];
    if ticks != [] {
      var at := ticks[0].at;
      var first := Apply(w, ticks[0]);
      OnlyTicksTail(ticks);
      if at - t >= MinElapsedTimeForUnblock {
        assert p in SweepCalls(w.tables, at, true);
        assert first.calls[p] == 1;
        AbsentUnderTicks(first.world, p, ticks[1..]);
        assert SomeTickSettles(ticks, t) by { assert ticks[0].at - t >= MinElapsedTimeForUnblock; }
      } else {
        assert p !in SweepCalls(w.tables, at, true);
        assert p in first.world.tables.pending && first.world.tables.pending[p] == t;
        PendingUnderTicks(first.world, p, ticks[1..]);
        SettlesLater(ticks, t);
      }
    }
  }

  /**
   * One notification for a path the engine has not seen, followed only by sweeps with
   * unblocking on: the path is unblocked exactly once if some sweep comes at least 1 s after
   * the notification, and never otherwise.
   */
  lemma SingleNotificationUnblocksOnce(w: World, p: string, t: int, ticks: seq<Step>)
    requires OnlyTicks(ticks) && w.unblocking
    requires p !in w.tables.processed
    ensures Replay(w, [Notify(p, t)] + ticks).calls[p] == if SomeTickSettles(ticks, t) then 1 else 0
  {
    var steps := [Notify(p, t)] + ticks;
    assert steps[0] == Notify(p, t) && steps[1..] == ticks;
    var first := Apply(w, steps[0]);
    assert first.calls == multiset{};
    PendingUnderTicks(first.world, p, ticks);
  }

  /** On a fresh engine, a file written once is unblocked exactly once iff some later sweep comes at least 1 s after the write. */
  lemma FreshEngineUnblocksOnce(p: string, t: int, ticks: seq<Step>)
    requires OnlyTicks(ticks)
    ensures Replay(Start, [Notify(p, t)] + ticks).calls[p] == if SomeTickSettles(ticks, t) then 1 else 0
  {
    SingleNotificationUnblocksOnce(Start, p, t, ticks);
  }

  /** While unblocking is off and stays off, no path is unblocked and no pending path is dropped. */
  lemma {:induction false} DisabledNeverUnblocks(w: World, steps: seq<Step>)
    requires !w.unblocking
    requires forall i :: 0 <= i < |steps| ==> !steps[i].SetMode?
    ensures Replay(w, steps).calls == multiset{}
    ensures w.tables.pending.Keys <= Replay(w, steps).world.tables.pending.Keys
    ensures !Replay(w, steps).world.unblocking
    decreases |steps|
  {
    if steps != [] {
      var first := Apply(w, steps[0]);
      assert first.calls == multiset{};
      assert w.tables.pending.Keys <= first.world.tables.pending.Keys;
      forall i | 0 <= i < |steps[1..]| ensures !steps[1..][i].SetMode? { assert steps[1..][i] == steps[i + 1]; }
      DisabledNeverUnblocks(first.world, steps[1..]);
    }
  }

  /**
   * The start of `p`'s stopwatch after `steps`, if it was `start` before them: the time of the
   * last notification for `p` among them, or `start` if there is none.
   */
  function LastStart(p: string, start: int, steps: seq<Step>): int
    decreases |steps|
  {
    if steps == [] then start
    else LastStart(p, if steps[0].Notify? && steps[0].path == p then steps[0].at else start, steps[1..])
  }

  /** Every sweep of `steps` comes less than 1 s after the latest notification for `p` before it. */
  predicate Quiet(p: string, start: int, steps: seq<Step>)
    decreases |steps|
  {
    if steps == [] then true
    else match steps[0]
      case Tick(at) => at - start < MinElapsedTimeForUnblock && Quiet(p, start, steps[1..])
      case Notify(q, at) => Quiet(p, if q == p then at else start, steps[1..])
      case SetMode(_) => Quiet(p, start, steps[1..])
  }

  /**
   * Debounce: a pending path whose writes keep coming less than 1 s apart, as far as any sweep
   * can see, is never unblocked and stays pending, its stopwatch restarted by the last write.
   */
  lemma {:induction false} QuietPathNeverUnblocked(w: World, p: string, steps: seq<Step>)
    requires p in w.tables.pending && Quiet(p, w.tables.pending[p], steps)
    ensures Replay(w, steps).calls[p] == 0
    ensures p in Replay(w, steps).world.tables.pending
    ensures Replay(w, steps).world.tables.pending[p] == LastStart(p, w.tables.pending[p], steps)
    ensures p !in w.tables.processed ==> p !in Replay(w, steps).world.tables.processed
    decreases |steps|
  {
    if steps != [] {
      var start := w.tables.pending[p];
      var first := Apply(w, steps[0]);
      match steps[0]
      case Tick(at) =>
        assert p !in Settled(w.tables.pending, at);
        assert p !in SweepCalls(w.tables, at, w.unblocking);
        QuietPathNeverUnblocked(first.world, p, steps[1..]);
      case Notify(q, at) =>
        QuietPathNeverUnblocked(first.world, p, steps[1..]);
      case SetMode(_) =>
        QuietPathNeverUnblocked(first.world, p, steps[1..]);
    }
  }

  /** Turning unblocking on makes the very next sweep unblock every overdue pending path that is not remembered. */
  lemma EnableThenSweep(w: World, now: int)
    ensures var r := Replay(w, [SetMode(true), Tick(now)]);
      && r.calls == multiset(Promoted(w.tables, now))
      && Settled(r.world.tables.pending, now) == {}
  {
    var steps := [SetMode(true), Tick(now)];
    var on := w.(unblocking := true);
    assert steps[1..] == [Tick(now)] && steps[1..][1..] == [];
    assert Replay(on, [Tick(now)]) == Run(on.(tables := Sweep(w.tables, now, true)), multiset(Promoted(w.tables, now)));
    assert Replay(w, steps) == Replay(on, [Tick(now)]);
    SweepEnabledLeavesNothingOverdue(w.tables, now);
  }

  // ---------------------------------------------------------------------------------------
  // Composition of runs.

  /** Replaying `steps` one after the other is replaying their concatenation. */
  lemma {:induction false} ReplayAppend(w: World, steps: seq<Step>, more: seq<Step>)
    ensures Replay(w, steps + more) ==
      Run(Replay(Replay(w, steps).world, more).world, Replay(w, steps).calls + Replay(Replay(w, steps).world, more).calls)
    decreases |steps|
  {
    if steps == [] {
      assert steps + more == more;
    } else {
      assert (steps + more)[0] == steps[0] && (steps + more)[1..] == steps[1..] + more;
      ReplayAppend(Apply(w, steps[0]).world, steps[1..], more);
    }
  }

  /** Steps that do not change the setting leave it as it is. */
  lemma {:induction false} ModeUnderSteps(w: World, steps: seq<Step>)
    requires forall i :: 0 <= i < |steps| ==> !steps[i].SetMode?
    ensures Replay(w, steps).world.unblocking == w.unblocking
    decreases |steps|
  {
    if steps != [] {
      forall i | 0 <= i < |steps[1..]| ensures !steps[1..][i].SetMode? { assert steps[1..][i] == steps[i + 1]; }
      ModeUnderSteps(Apply(w, steps[0]).world, steps[1..]);
    }
  }

  /**
   * Debounce of a burst of writes: while the writes to a pending, unremembered path come less
   * than 1 s before every sweep, and afterwards only sweeps follow, with unblocking on
   * throughout, the path is unblocked exactly once if some later sweep comes at least 1 s
   * after the last write, and never otherwise.
   */
  lemma BurstThenSweeps(w: World, p: string, burst: seq<Step>, ticks: seq<Step>)
    requires w.unblocking && p in w.tables.pending && p !in w.tables.processed
    requires Quiet(p, w.tables.pending[p], burst)
    requires forall i :: 0 <= i < |burst| ==> !burst[i].SetMode?
    requires OnlyTicks(ticks)
    ensures Replay(w, burst + ticks).calls[p] ==
      if SomeTickSettles(ticks, LastStart(p, w.tables.pending[p], burst)) then 1 else 0
  {
    ReplayAppend(w, burst, ticks);
    QuietPathNeverUnblocked(w, p, burst);
    ModeUnderSteps(w, burst);
    PendingUnderTicks(Replay(w, burst).world, p, ticks);
  }
}
