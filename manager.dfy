/**
 * The file unblock manager as the source runs it: two tables updated in place, the
 * notification handler `OnChanged`, the sweep `OnUnblockTimer` with its collect-then-remove
 * loops, and the guard that keeps at most one sweep queued on the dispatcher.
 *
 * The three copies of `OnChanged`, `UnblockTimerCallback` and `OnUnblockTimer`
 * (Insta-Unblock-Plugin/InstaUnblockPlugin.cs, Insta-Unblock-Plugin/Insta-Unblock-Plugin.cs and
 * Insta-Unblock/App.xaml.cs) are the same statement for statement, logging aside; this class
 * models all of them.
 */
module UnblockManager {

  import opened Wrappers
  import opened Registry
  import opened Debounce

  const UnblockingSettingName: string := "Unblocking"

  /** The state of `UnblockTimerOperation`: none yet, queued on the dispatcher, or completed. */
  datatype Operation = NoOperation | Queued | Completed

  /** The distinct elements of a sequence. */
  function Elems(s: seq<string>): set<string>
  {
    set x | x in s
  }

  lemma ElemsAppend(s: seq<string>, x: string)
    ensures Elems(s + [x]) == Elems(s) + {x}
  {
    assert forall y :: y in s + [x] <==> y in s || y == x;
  }

  lemma DistinctAppend(s: seq<string>, x: string)
    requires Distinct(s) && x !in s
    ensures Distinct(s + [x])
  {
  }

  lemma UnionUpdate(a: Table, b: Table, k: string, v: int)
    ensures (a + b)[k := v] == a + b[k := v]
  {
  }

  lemma StampAdd(paths: set<string>, path: string, now: int)
    ensures Stamp(paths + {path}, now) == Stamp(paths, now)[path := now]
  {
  }

  /** No path occurs twice. */
  predicate Distinct(s: seq<string>)
  {
    forall i, j :: 0 <= i < j < |s| ==> s[i] != s[j]
  }

  /**
   * What the second loop of the sweep has established once the paths outside `toScan` are
   * visited: the flag was read iff one of them is settled, `entryToRemove` holds the settled
   * ones when the flag is on, and `calls` (the unblock calls made, each path once) are those
   * of them that were not processed, each now processed at `now`.
   */
  ghost predicate ScanInv(pending: Table, now: int, flag: bool, toScan: set<string>,
                          unblock: Option<bool>, entryToRemove: seq<string>,
                          processed0: Table, processed: Table, calls: seq<string>)
  {
    && toScan <= pending.Keys
    && (unblock.None? <==> Settled(pending, now) - toScan == {})
    && (unblock.Some? ==> unblock.value == flag)
    && Elems(entryToRemove) == (if unblock == Some(true) then Settled(pending, now) - toScan else {})
    && CallsInv(now, entryToRemove, processed0, processed, calls)
  }

  /** The unblock calls of the scan so far: once each, on the removed paths that were not processed. */
  ghost predicate CallsInv(now: int, entryToRemove: seq<string>, processed0: Table, processed: Table, calls: seq<string>)
  {
    && processed == processed0 + Stamp(Elems(calls), now)
    && Distinct(calls)
    && Elems(calls) == Elems(entryToRemove) - processed0.Keys
  }

  /** Removing one more path keeps `CallsInv`, with a call exactly when the path is not processed. */
  lemma CallsStep(now: int, entryToRemove: seq<string>, processed0: Table, processed: Table, calls: seq<string>,
                  path: string, processed': Table)
    requires CallsInv(now, entryToRemove, processed0, processed, calls)
    requires path !in Elems(entryToRemove)
    requires processed' == if path !in processed then processed[path := now] else processed
    ensures CallsInv(now, entryToRemove + [path], processed0, processed',
                     if path !in processed then calls + [path] else calls)
  {
    assert path !in Elems(calls);
    ElemsAppend(entryToRemove, path);
    if path !in processed {
      ElemsAppend(calls, path);
      DistinctAppend(calls, path);
      StampAdd(Elems(calls), path, now);
      UnionUpdate(processed0, Stamp(Elems(calls), now), path, now);
    }
  }

  /** Visiting one more pending path as `VisitPending` does keeps `ScanInv`. */
  lemma ScanStep(pending: Table, now: int, flag: bool, toScan: set<string>,
                 unblock: Option<bool>, entryToRemove: seq<string>,
                 processed0: Table, processed: Table, calls: seq<string>,
                 path: string, unblock': Option<bool>, remove: bool, processed': Table)
    requires ScanInv(pending, now, flag, toScan, unblock, entryToRemove, processed0, processed, calls)
    requires path in toScan
    requires var settled := Elapsed(pending[path], now) >= MinElapsedTimeForUnblock;
      && unblock' == (if settled && unblock.None? then Some(flag) else unblock)
      && remove == (settled && unblock' == Some(true))
    requires processed' == if remove && path !in processed then processed[path := now] else processed
    ensures ScanInv(pending, now, flag, toScan - {path}, unblock',
              if remove then entryToRemove + [path] else entryToRemove,
              processed0, processed',
              if remove && path !in processed then calls + [path] else calls)
  {
    var settled := Elapsed(pending[path], now) >= MinElapsedTimeForUnblock;
    assert path in Settled(pending, now) <==> settled;
    if remove {
      ScanStepRemove(pending, now, flag, toScan, unblock, entryToRemove, processed0, processed, calls, path, processed');
    } else {
      assert Settled(pending, now) - (toScan - {path}) ==
        if settled then Settled(pending, now) - toScan + {path} else Settled(pending, now) - toScan;
    }
  }

  /** The case of `ScanStep` where the path is settled and the flag is on. */
  lemma ScanStepRemove(pending: Table, now: int, flag: bool, toScan: set<string>,
                       unblock: Option<bool>, entryToRemove: seq<string>,
                       processed0: Table, processed: Table, calls: seq<string>,
                       path: string, processed': Table)
    requires ScanInv(pending, now, flag, toScan, unblock, entryToRemove, processed0, processed, calls)
    requires path in toScan && Elapsed(pending[path], now) >= MinElapsedTimeForUnblock && flag
    requires processed' == if path !in processed then processed[path := now] else processed
    ensures ScanInv(pending, now, flag, toScan - {path}, Some(true),
                    entryToRemove + [path], processed0, processed',
                    if path !in processed then calls + [path] else calls)
  {
    assert path in Settled(pending, now);
    ElemsAppend(entryToRemove, path);
    CallsStep(now, entryToRemove, processed0, processed, calls, path, processed');
  }

  class FileUnblockManager {
    /** `CreateFileTable`: paths notified and not yet unblocked. */
    var pending: Table
    /** `UnlockedFileTable`: paths unblocked recently. */
    var processed: Table
    /** `UnblockTimerOperation`. */
    var operation: Operation
    /** The settings the "Unblocking" flag is read from. */
    const settings: PluginSettings
    /** Every path `UnblockFile` was called on, in call order. */
    ghost var unblocked: seq<string>
    /** How many times a sweep has read the "Unblocking" flag. */
    ghost var flagReads: nat

    /** Every processed path has had the unblock action invoked on it. */
    ghost predicate Valid()
      reads this
    {
      forall p :: p in processed ==> p in unblocked
    }

    function State(): Tables
      reads this
    {
      Tables(pending, processed)
    }

    constructor (settings: PluginSettings)
      ensures Valid()
      ensures pending == map[] && processed == map[] && operation == NoOperation
      ensures unblocked == [] && flagReads == 0 && this.settings == settings
    {
      pending, processed, operation := map[], map[], NoOperation;
      this.settings := settings;
      unblocked, flagReads := [], 0;
    }

    /** `IsUnblocking`: the "Unblocking" setting, true when it is unset or unreadable. */
    function IsUnblocking(): (r: bool)
      reads settings
      ensures !settings.IsBoolKeySet(UnblockingSettingName) ==> r
      ensures settings.IsBoolKeySet(UnblockingSettingName) ==>
        (r <==> settings.values[UnblockingSettingName].n != 0)
    {
      settings.GetSettingBool(UnblockingSettingName, true)
    }

    /** `ChangeUnblockMode` of the application: writes the setting through. */
    method ChangeUnblockMode(unblock: bool)
      modifies settings
      ensures settings.available ==> IsUnblocking() == unblock
      ensures !settings.available ==> IsUnblocking()
      ensures settings.values == if settings.available
        then old(settings.values)[UnblockingSettingName := DWord(if unblock then 1 else 0)]
        else old(settings.values)
    {
      settings.SetSettingBool(UnblockingSettingName, unblock);
    }

    /** A change notification for `path` arriving at `now`. */
    method OnChanged(path: string, now: int)
      requires Valid()
      modifies this`pending
      ensures Valid()
      ensures pending == old(pending)[path := now]
      ensures State() == Record(old(State()), path, now)
    {
      // A new path is added with a started stopwatch; a pending one has its stopwatch restarted.
      // Both leave the path's start at `now`.
      pending := pending[path := now];
    }

    /** A tick of the timer: queue a sweep unless one is still queued. */
    method UnblockTimerCallback() returns (dispatched: bool)
      modifies this`operation
      ensures dispatched <==> old(operation) == NoOperation || old(operation) == Completed
      ensures operation == Queued
    {
      dispatched := operation == NoOperation || operation == Completed;
      if dispatched {
        operation := Queued;
      }
    }

    /** The dispatcher running what is queued, if anything, at `now`. */
    method RunDispatcher(now: int) returns (ran: bool)
      requires Valid()
      modifies this
      ensures Valid()
      ensures ran <==> old(operation) == Queued
      ensures ran ==> operation == Completed
      ensures !ran ==> && operation == old(operation) && State() == old(State())
                       && unblocked == old(unblocked) && flagReads == old(flagReads)
      ensures ran ==> State() == Sweep(old(State()), now, IsUnblocking())
      ensures ran ==> flagReads == old(flagReads) + if Settled(old(pending), now) == {} then 0 else 1
      ensures ran ==> |old(unblocked)| <= |unblocked| && unblocked[..|old(unblocked)|] == old(unblocked)
      ensures ran ==> Distinct(unblocked[|old(unblocked)|..])
      ensures ran ==> Elems(unblocked[|old(unblocked)|..]) == SweepCalls(old(State()), now, IsUnblocking())
    {
      ran := operation == Queued;
      if ran {
        ghost var t := State();
        var unblock := OnUnblockTimer(now);
        if unblock.None? {
          SweepIgnoresFlagWhenNothingSettled(t, now);
        }
        operation := Completed;
      }
    }

    /** The unblock action; its effect on the file system is recorded as a call in `unblocked`. */
    method UnblockFile(path: string)
      modifies this`unblocked
      ensures unblocked == old(unblocked) + [path]
    {
      unblocked := unblocked + [path];
    }

    /** The first loop of the sweep: the processed paths remembered for at least 5 s (`EntryToForget`). */
    method CollectExpired(now: int) returns (entryToForget: seq<string>)
      ensures Elems(entryToForget) == Expired(processed, now)
      ensures Distinct(entryToForget)
    {
      entryToForget := [];
      var toScan := processed.Keys;
      while toScan != {}
        invariant toScan <= processed.Keys
        invariant Elems(entryToForget) == Expired(processed, now) - toScan
        invariant Distinct(entryToForget)
        decreases toScan
      {
        var path :| path in toScan;
        if Elapsed(processed[path], now) >= MinElapsedTimeForForget {
          ElemsAppend(entryToForget, path);
          entryToForget := entryToForget + [path];
        }
        toScan := toScan - {path};
      }
    }

    /**
     * The body of the second loop for one pending path: a settled path makes the sweep read
     * the flag if it has not yet; with the flag on, the path is to be removed from pending and,
     * unless it is processed, is unblocked and becomes processed at `now`.
     */
    method VisitPending(path: string, now: int, unblock: Option<bool>) returns (unblock': Option<bool>, remove: bool)
      requires path in pending
      requires unblock.Some? ==> unblock.value == IsUnblocking()
      modifies this`processed, this`unblocked, this`flagReads
      ensures var settled := Elapsed(pending[path], now) >= MinElapsedTimeForUnblock;
        && unblock' == (if settled && unblock.None? then Some(IsUnblocking()) else unblock)
        && flagReads == old(flagReads) + (if settled && unblock.None? then 1 else 0)
        && remove == (settled && unblock' == Some(true))
      ensures remove && path !in old(processed) ==> unblocked == old(unblocked) + [path]
      ensures !(remove && path !in old(processed)) ==> unblocked == old(unblocked)
      ensures processed == if remove && path !in old(processed) then old(processed)[path := now] else old(processed)
    {
      unblock', remove := unblock, false;
      if Elapsed(pending[path], now) >= MinElapsedTimeForUnblock {
        if unblock'.None? {
          unblock' := Some(IsUnblocking());
          flagReads := flagReads + 1;
        }
        if unblock'.value {
          remove := true;
          if path !in processed {
            UnblockFile(path);
            processed := processed[path := now];
          }
        }
      }
    }

    /**
     * The second loop of the sweep: scans the pending paths; when one is settled, reads the
     * flag if it has not been read yet and, if the flag is on, marks the path for removal
     * (`EntryToRemove`) and, unless it is processed, unblocks it and makes it processed.
     */
    method PromoteSettled(now: int) returns (unblock: Option<bool>, entryToRemove: seq<string>, ghost calls: seq<string>)
      requires Valid()
      modifies this`processed, this`unblocked, this`flagReads
      ensures Valid()
      ensures unblock == if Settled(pending, now) == {} then None else Some(IsUnblocking())
      ensures flagReads == old(flagReads) + if unblock.Some? then 1 else 0
      ensures Elems(entryToRemove) == if unblock == Some(true) then Settled(pending, now) else {}
      ensures unblocked == old(unblocked) + calls
      ensures Distinct(calls)
      ensures Elems(calls) == if unblock == Some(true) then Settled(pending, now) - old(processed).Keys else {}
      ensures processed == old(processed) + Stamp(Elems(calls), now)
    {
      unblock := None;
      entryToRemove := [];
      ghost var flag := IsUnblocking();
      ghost var processed0, log0, reads0 := processed, unblocked, flagReads;
      calls := [];
      var toScan := pending.Keys;
      assert processed0 + Stamp(Elems(calls), now) == processed0;
      while toScan != {}
        invariant ScanInv(pending, now, flag, toScan, unblock, entryToRemove, processed0, processed, calls)
        invariant flagReads == reads0 + if unblock.Some? then 1 else 0
        invariant unblocked == log0 + calls
        decreases toScan
      {
        var path :| path in toScan;
        ghost var before := processed;
        var next, remove := VisitPending(path, now, unblock);
        ScanStep(pending, now, flag, toScan, unblock, entryToRemove, processed0, before, calls, path, next, remove, processed);
        ghost var call := remove && path !in before;
        assert call ==> log0 + (calls + [path]) == (log0 + calls) + [path];
        entryToRemove := if remove then entryToRemove + [path] else entryToRemove;
        calls := if call then calls + [path] else calls;
        unblock := next;
        toScan := toScan - {path};
      }
      assert Settled(pending, now) - toScan == Settled(pending, now);
      assert forall p :: p in Elems(calls) ==> p in unblocked;
    }

    /**
     * One sweep at `now` (`OnUnblockTimer`). Returns the value of the flag it read (`Unblock`),
     * or None when no pending path was settled and the flag was not read.
     */
    method OnUnblockTimer(now: int) returns (unblock: Option<bool>)
      requires Valid()
      modifies this`pending, this`processed, this`unblocked, this`flagReads
      ensures Valid()
      ensures unblock == if Settled(old(pending), now) == {} then None else Some(IsUnblocking())
      ensures flagReads == old(flagReads) + if unblock.Some? then 1 else 0
      ensures State() == Sweep(old(State()), now, unblock == Some(true))
      ensures |old(unblocked)| <= |unblocked| && unblocked[..|old(unblocked)|] == old(unblocked)
      ensures Distinct(unblocked[|old(unblocked)|..])
      ensures Elems(unblocked[|old(unblocked)|..]) == SweepCalls(old(State()), now, unblock == Some(true))
    {
      ghost var t := State();
      var entryToForget := CollectExpired(now);
      processed := RemoveEach(processed, entryToForget);
      assert processed == Forget(t.processed, now);
      var entryToRemove;
      ghost var calls;
      unblock, entryToRemove, calls := PromoteSettled(now);
      assert unblocked[|old(unblocked)|..] == calls;
      pending := RemoveEach(pending, entryToRemove);
      if unblock == Some(true) {
        assert State() == Sweep(t, now, true);
      } else {
        assert pending == t.pending - {};
        assert processed == Forget(t.processed, now) + map[];
      }
    }
  }

  /** Removes the listed paths from a table one by one, as the loops over `EntryToForget` and `EntryToRemove` do. */
  method RemoveEach(table: Table, entries: seq<string>) returns (r: Table)
    ensures r == table - Elems(entries)
  {
    r := table;
    for i := 0 to |entries|
      invariant r == table - Elems(entries[..i])
    {
      assert entries[..i + 1] == entries[..i] + [entries[i]];
      ElemsAppend(entries[..i], entries[i]);
      r := r - {entries[i]};
    }
    assert entries[..|entries|] == entries;
  }
}
