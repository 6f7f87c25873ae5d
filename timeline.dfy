/**
 * One download followed through the manager: a notification, the sweeps that come too early
 * and on time, the echo notification the unblock itself raises, and the forget pass. It ties
 * the manager's log to the debounce promises on a concrete run.
 */
module Timeline {

  import opened Registry
  import opened Debounce
  import opened UnblockManager

  const Download: string := "/downloads/a.zip"

  /** A log without elements is empty. */
  lemma LogOfNoCalls(s: seq<string>)
    ensures Elems(s) == {} <==> s == []
  {
    if s != [] {
      assert s[0] in Elems(s);
    }
  }

  /** A log of distinct calls whose only element is `x` is the single call `x`. */
  lemma LogOfOneCall(s: seq<string>, x: string)
    ensures Distinct(s) && Elems(s) == {x} ==> s == [x]
  {
    if |s| > 1 {
      assert s[0] in Elems(s) && s[1] in Elems(s);
    }
    if s != [] {
      assert s[0] in Elems(s);
    }
  }

  /** At 0.5 s the file has been quiet too briefly: nothing changes. */
  lemma SweepTooEarly()
    ensures var t := Tables(map[Download := 0], map[]);
      Sweep(t, 5_000_000, true) == t && SweepCalls(t, 5_000_000, true) == {}
  {
    assert Settled(map[Download := 0], 5_000_000) == {};
  }

  /** At 1.1 s the file has been quiet for 1 s: it is unblocked and remembered. */
  lemma SweepOnTime()
    ensures var t := Tables(map[Download := 0], map[]);
      Sweep(t, 11_000_000, true) == Tables(map[], map[Download := 11_000_000])
      && SweepCalls(t, 11_000_000, true) == {Download}
  {
    assert Settled(map[Download := 0], 11_000_000) == {Download};
  }

  /** At 5.2 s the echo notification has settled, but the file is still remembered: dropped, no call. */
  lemma SweepRemembered()
    ensures var t := Tables(map[Download := 12_000_000], map[Download := 11_000_000]);
      Sweep(t, 52_000_000, true) == Tables(map[], map[Download := 11_000_000])
      && SweepCalls(t, 52_000_000, true) == {}
  {
    assert Expired(map[Download := 11_000_000], 52_000_000) == {};
    assert Settled(map[Download := 12_000_000], 52_000_000) == {Download};
  }

  /** At 6.2 s the file was unblocked more than 5 s ago: it is forgotten. */
  lemma SweepForgets()
    ensures var t := Tables(map[], map[Download := 11_000_000]);
      Sweep(t, 62_000_000, true) == Tables(map[], map[]) && SweepCalls(t, 62_000_000, true) == {}
  {
    assert Expired(map[Download := 11_000_000], 62_000_000) == {Download};
  }

  /** One timer tick at `now` whose sweep the dispatcher then runs. */
  method Tick(m: FileUnblockManager, now: int)
    requires m.Valid() && m.operation != Queued
    modifies m
    ensures m.Valid() && m.operation == Completed
    ensures m.State() == Sweep(old(m.State()), now, m.IsUnblocking())
    ensures |old(m.unblocked)| <= |m.unblocked| && m.unblocked[..|old(m.unblocked)|] == old(m.unblocked)
    ensures Distinct(m.unblocked[|old(m.unblocked)|..])
    ensures Elems(m.unblocked[|old(m.unblocked)|..]) == SweepCalls(old(m.State()), now, m.IsUnblocking())
  {
    var dispatched := m.UnblockTimerCallback();
    var ran := m.RunDispatcher(now);
  }

  /**
   * A file written at 0 s, swept at 0.5 s (too early), 1.1 s (unblocked), notified again at
   * 1.2 s by the unblock itself, swept at 5.2 s (still remembered, so dropped without a call)
   * and at 6.2 s (forgotten). The file is unblocked exactly once and both tables end empty.
   */
  method DownloadTimeline() returns (m: FileUnblockManager)
    ensures m.unblocked == [Download]
    ensures m.pending == map[] && m.processed == map[]
  {
    var settings := new PluginSettings(true, map[]);
    m := new FileUnblockManager(settings);
    assert m.IsUnblocking();

    m.OnChanged(Download, 0);

    Tick(m, 5_000_000);
    SweepTooEarly();
    assert m.State() == Tables(map[Download := 0], map[]);
    LogOfNoCalls(m.unblocked);

    Tick(m, 11_000_000);
    SweepOnTime();
    assert m.State() == Tables(map[], map[Download := 11_000_000]);
    LogOfOneCall(m.unblocked, Download);

    m.OnChanged(Download, 12_000_000);

    ghost var log := m.unblocked;
    Tick(m, 52_000_000);
    SweepRemembered();
    assert m.State() == Tables(map[], map[Download := 11_000_000]);
    LogOfNoCalls(m.unblocked[|log|..]);
    assert m.unblocked == log + m.unblocked[|log|..];

    log := m.unblocked;
    Tick(m, 62_000_000);
    SweepForgets();
    LogOfNoCalls(m.unblocked[|log|..]);
    assert m.unblocked == log + m.unblocked[|log|..];
  }
}
