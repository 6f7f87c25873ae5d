/**
 * The file-unblock debounce engine as values: the pending table (`CreateFileTable`), the
 * processed table (`UnlockedFileTable`), what one notification does to them and what one
 * sweep of the unblock timer does to them.
 *
 * Each table maps a path to the moment its stopwatch was (re)started; the stopwatch's
 * `Elapsed` at a moment `now` is `now - start`. Time is counted in TimeSpan ticks of 100 ns.
 */
module Debounce {

  const TicksPerSecond: int := 10_000_000
  /** `MinElapsedTimeForUnblock`: the quiet time after which a pending path is settled (1 s). */
  const MinElapsedTimeForUnblock: int := 1 * TicksPerSecond
  /** `MinElapsedTimeForForget`: how long a processed path is remembered (5 s). */
  const MinElapsedTimeForForget: int := 5 * TicksPerSecond

  /** Path -> start of its stopwatch. */
  type Table = map<string, int>

  datatype Tables = Tables(pending: Table, processed: Table)

  /** The elapsed time of a stopwatch started at `start`, read at `now`. */
  function Elapsed(start: int, now: int): int
  {
    now - start
  }

  /** Pending paths quiet for at least `MinElapsedTimeForUnblock`. */
  function Settled(pending: Table, now: int): set<string>
  {
    set p | p in pending && Elapsed(pending[p], now) >= MinElapsedTimeForUnblock
  }

  /** Processed paths remembered for at least `MinElapsedTimeForForget`. */
  function Expired(processed: Table, now: int): set<string>
  {
    set p | p in processed && Elapsed(processed[p], now) >= MinElapsedTimeForForget
  }

  /** The processed table after the forget pass. */
  function Forget(processed: Table, now: int): Table
  {
    processed - Expired(processed, now)
  }

  /**
   * A table whose every path starts its stopwatch at `now`. The value is guarded by `p in paths`
   * because Dafny 4.11 encodes a map comprehension with a total value function, so that
   * `map p | p in {} :: 5` and `map p | p in {} :: 6` are equal maps with different value
   * functions, from which two sweeps with literal arguments would prove `false`.
   */
  function Stamp(paths: set<string>, now: int): Table
  {
    map p | p in paths :: if p in paths then now else 0
  }

  /** The paths a sweep unblocks when unblocking is on: settled and not remembered after forgetting. */
  function Promoted(t: Tables, now: int): set<string>
  {
    Settled(t.pending, now) - Forget(t.processed, now).Keys
  }

  /** A notification for `path` at `now` (OnChanged): insert it or restart its stopwatch. */
  function Record(t: Tables, path: string, now: int): Tables
  {
    t.(pending := t.pending[path := now])
  }

  /**
   * One sweep at `now`, `unblock` being the value of the "Unblocking" setting the sweep reads.
   * The setting is read only when some path is settled; when none is, both values give the
   * same tables (SweepIgnoresFlagWhenNothingSettled).
   */
  function Sweep(t: Tables, now: int, unblock: bool): Tables
  {
    var kept := Forget(t.processed, now);
    if unblock then
      Tables(t.pending - Settled(t.pending, now), kept + Stamp(Promoted(t, now), now))
    else
      Tables(t.pending, kept)
  }

  /** The paths on which one sweep invokes the unblock action. */
  function SweepCalls(t: Tables, now: int, unblock: bool): set<string>
  {
    if unblock then Promoted(t, now) else {}
  }

  // ---------------------------------------------------------------------------------------
  // Properties of one notification and one sweep.

  /** A notification inserts or restarts `path` and changes nothing else. */
  lemma RecordDebounces(t: Tables, path: string, now: int)
    ensures var r := Record(t, path, now);
      && r.pending.Keys == t.pending.Keys + {path}
      && r.pending[path] == now
      && (forall p :: p in t.pending && p != path ==> r.pending[p] == t.pending[p])
      && r.processed == t.processed
  {
  }

  /** The forget pass removes exactly the processed paths aged at least 5 s and keeps the others' start. */
  lemma ForgetExact(processed: Table, now: int)
    ensures forall p :: p in Forget(processed, now) <==>
      p in processed && now - processed[p] < MinElapsedTimeForForget
    ensures forall p :: p in Forget(processed, now) ==> Forget(processed, now)[p] == processed[p]
  {
  }

  /** A path is settled iff it is pending with an age of at least 1 s. */
  lemma SettledExact(pending: Table, now: int)
    ensures forall p :: p in Settled(pending, now) <==>
      p in pending && now - pending[p] >= MinElapsedTimeForUnblock
  {
  }

  /** With nothing settled the flag is irrelevant (so it need not be read): nothing is unblocked, pending is unchanged. */
  lemma SweepIgnoresFlagWhenNothingSettled(t: Tables, now: int)
    requires Settled(t.pending, now) == {}
    ensures Sweep(t, now, true) == Sweep(t, now, false)
    ensures Sweep(t, now, true).pending == t.pending
    ensures SweepCalls(t, now, true) == {} && SweepCalls(t, now, false) == {}
  {
  }

  /** With unblocking off a sweep keeps every pending entry as it is and unblocks nothing. */
  lemma SweepDisabled(t: Tables, now: int)
    ensures Sweep(t, now, false).pending == t.pending
    ensures Sweep(t, now, false).processed == Forget(t.processed, now)
    ensures SweepCalls(t, now, false) == {}
  {
  }

  /** With unblocking on, pending loses exactly its settled paths and the others keep their start. */
  lemma SweepEnabledPending(t: Tables, now: int)
    ensures forall p :: p in Sweep(t, now, true).pending <==>
      p in t.pending && now - t.pending[p] < MinElapsedTimeForUnblock
    ensures forall p :: p in Sweep(t, now, true).pending ==> Sweep(t, now, true).pending[p] == t.pending[p]
  {
  }

  /**
   * With unblocking on, the action is invoked on a path iff it is settled and not remembered
   * after the forget pass; each such path is then processed with start `now`.
   */
  lemma SweepEnabledCalls(t: Tables, now: int)
    ensures forall p :: p in SweepCalls(t, now, true) <==>
      && p in t.pending && now - t.pending[p] >= MinElapsedTimeForUnblock
      && !(p in t.processed && now - t.processed[p] < MinElapsedTimeForForget)
    ensures forall p :: p in SweepCalls(t, now, true) ==>
      p in Sweep(t, now, true).processed && Sweep(t, now, true).processed[p] == now
  {
  }

  /**
   * A settled path that is still remembered leaves pending without a new unblock call, and
   * keeps the start of its processed entry.
   */
  lemma SettledAlreadyProcessed(t: Tables, now: int, p: string)
    requires p in t.pending && now - t.pending[p] >= MinElapsedTimeForUnblock
    requires p in t.processed && now - t.processed[p] < MinElapsedTimeForForget
    ensures p !in Sweep(t, now, true).pending
    ensures p !in SweepCalls(t, now, true)
    ensures p in Sweep(t, now, true).processed && Sweep(t, now, true).processed[p] == t.processed[p]
  {
  }

  /** The processed table after a sweep is what the forget pass kept plus the newly unblocked paths. */
  lemma SweepProcessed(t: Tables, now: int, unblock: bool)
    ensures var r := Sweep(t, now, unblock);
      r.processed.Keys == Forget(t.processed, now).Keys + SweepCalls(t, now, unblock)
  {
  }

  /** A processed path is never forgotten before 5 s: a sweep earlier than that keeps its start, whatever the flag. */
  lemma NotForgottenEarly(t: Tables, now: int, unblock: bool, p: string)
    requires p in t.processed && now < t.processed[p] + MinElapsedTimeForForget
    ensures p in Sweep(t, now, unblock).processed
    ensures Sweep(t, now, unblock).processed[p] == t.processed[p]
  {
  }

  /** A sweep with nothing settled and nothing expired changes neither table and unblocks nothing. */
  lemma SweepIdempotentWhenQuiet(t: Tables, now: int, unblock: bool)
    requires Settled(t.pending, now) == {} && Expired(t.processed, now) == {}
    ensures Sweep(t, now, unblock) == t
    ensures SweepCalls(t, now, unblock) == {}
  {
  }

  /** After a sweep with unblocking on, no pending path is overdue. */
  lemma SweepEnabledLeavesNothingOverdue(t: Tables, now: int)
    ensures Settled(Sweep(t, now, true).pending, now) == {}
  {
  }
}
