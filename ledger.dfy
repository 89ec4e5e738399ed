/**
 * The profit ledger: running totals, the rolling one-hour history behind the
 * hourly rate, the best flip, per-day buckets, and the durable subset kept in
 * the statistics file.
 */
module Ledger {
  import opened Wrappers

  const HourMillis: int := 3600000
  const DayMillis: int := 86400000

  /** An entry `[timestamp, profit]` of `profitHistory`. */
  datatype HistoryEntry = HistoryEntry(timestamp: int, profit: real)

  /** `bestFlip`; `itemId` is null until a flip beats the initial profit of 0. */
  datatype BestFlip = BestFlip(itemId: Option<string>, profit: real)

  /** A value of `dailyStats`. */
  datatype DayStats = DayStats(profit: real, flips: nat)

  /** The `statistics` object. Days are keyed by the index of the UTC day. */
  datatype Statistics = Statistics(
    totalProfit: real,
    flipsCompleted: nat,
    startTimestamp: int,
    sessionProfit: real,
    lastResetTimestamp: int,
    profitHistory: seq<HistoryEntry>,
    lastHourProfit: real,
    bestFlip: BestFlip,
    dailyStats: map<int, DayStats>)

  /** The record `saveStatistics` writes; a field may be absent when the file is read back. */
  datatype SavedRecord = SavedRecord(
    totalProfit: Option<real>,
    flipsCompleted: Option<nat>,
    bestFlip: Option<BestFlip>,
    dailyStats: Option<map<int, DayStats>>,
    lastSaved: Option<int>)

  /** What `statistics.json` holds, as `loadStatistics` sees it. */
  datatype StoredFile = Missing | Unparseable | JsonNull | Json(record: SavedRecord)

  /** A completed flip handed to `recordFlip`: the item, the actual profit and the time. */
  datatype Completion = Completion(itemId: string, profit: real, at: int)

  const InitialStatistics: Statistics :=
    Statistics(0.0, 0, 0, 0.0, 0, [], 0.0, BestFlip(None, 0.0), map[])

  /** The key `new Date().toISOString().split('T')[0]` stands for: the UTC day of `now`. */
  function DayKey(now: int): int
  {
    now / DayMillis
  }

  // ---------------------------------------------------------------------------
  // The rolling hour
  // ---------------------------------------------------------------------------

  /** The entries at most one hour older than `now`, in their order (`entry[0] >= oneHourAgo`). */
  function WithinHour(h: seq<HistoryEntry>, now: int): seq<HistoryEntry>
  {
    if h == [] then []
    else
      WithinHour(h[..|h| - 1], now) +
        (if h[|h| - 1].timestamp >= now - HourMillis then [h[|h| - 1]] else [])
  }

  /** The filter keeps exactly the recent entries. */
  lemma {:induction false} WithinHourMembers(h: seq<HistoryEntry>, now: int)
    ensures forall e :: e in WithinHour(h, now) <==> e in h && e.timestamp >= now - HourMillis
  {
    if h != [] {
      WithinHourMembers(h[..|h| - 1], now);
      assert h == h[..|h| - 1] + [h[|h| - 1]];
    }
  }

  /** Filtering works piecewise, so the kept entries stay in their order. */
  lemma {:induction false} WithinHourAppend(a: seq<HistoryEntry>, b: seq<HistoryEntry>, now: int)
    ensures WithinHour(a + b, now) == WithinHour(a, now) + WithinHour(b, now)
  {
    if b == [] {
      assert a + b == a;
    } else {
      assert (a + b)[..|a + b| - 1] == a + b[..|b| - 1];
      WithinHourAppend(a, b[..|b| - 1], now);
    }
  }

  /** Timestamps never decrease along the history. */
  predicate Chronological(h: seq<HistoryEntry>)
  {
    forall i, j :: 0 <= i < j < |h| ==> h[i].timestamp <= h[j].timestamp
  }

  lemma {:induction false} WithinHourChronological(h: seq<HistoryEntry>, now: int)
    requires Chronological(h)
    ensures Chronological(WithinHour(h, now))
  {
    if h != [] {
      var init := h[..|h| - 1];
      WithinHourChronological(init, now);
      WithinHourMembers(init, now);
      var w := WithinHour(init, now);
      forall k | 0 <= k < |w| ensures w[k].timestamp <= h[|h| - 1].timestamp {
        assert w[k] in init;
      }
    }
  }

  /** In a chronological history the first entry is the oldest one. */
  lemma FirstIsOldest(h: seq<HistoryEntry>)
    requires Chronological(h) && h != []
    ensures forall e :: e in h ==> h[0].timestamp <= e.timestamp
  {
  }

  /** An entry exactly one hour old is kept; one a millisecond older is dropped. */
  lemma HourBoundaryInclusive(now: int, p: real, q: real)
    ensures WithinHour([HistoryEntry(now - 3600000, p)], now) == [HistoryEntry(now - 3600000, p)]
    ensures WithinHour([HistoryEntry(now - 3600001, q)], now) == []
  {
    assert [HistoryEntry(now - 3600000, p)][..0] == [];
    assert [HistoryEntry(now - 3600001, q)][..0] == [];
  }

  // ---------------------------------------------------------------------------
  // recordFlip
  // ---------------------------------------------------------------------------

  /** The best flip after one of `p` coins: replaced only by a strictly larger profit. */
  function BestAfter(best: BestFlip, itemId: string, p: real): (r: BestFlip)
    ensures r.profit >= best.profit && r.profit >= p
    ensures r.profit == best.profit || r.profit == p
    ensures r != best ==> r == BestFlip(Some(itemId), p)
    ensures p <= best.profit ==> r == best
  {
    if p > best.profit then BestFlip(Some(itemId), p) else best
  }

  /** The day bucket of `key` after one more flip of `p` coins, created empty when absent. */
  function DayAfter(daily: map<int, DayStats>, key: int, p: real): map<int, DayStats>
  {
    var before := if key in daily then daily[key] else DayStats(0.0, 0);
    daily[key := DayStats(before.profit + p, before.flips + 1)]
  }

  /**
   * One more flip touches only its own day: that bucket gains the profit and
   * one flip (starting from nothing when the day is new) and every other day
   * is left as it was.
   */
  lemma DayAfterBuckets(daily: map<int, DayStats>, key: int, p: real)
    ensures DayAfter(daily, key, p).Keys == daily.Keys + {key}
    ensures forall d :: d in daily && d != key ==> DayAfter(daily, key, p)[d] == daily[d]
    ensures key in daily ==> DayAfter(daily, key, p)[key] == DayStats(daily[key].profit + p, daily[key].flips + 1)
    ensures key !in daily ==> DayAfter(daily, key, p)[key] == DayStats(p, 1)
  {
  }

  /** The statistics after `recordFlip` of `p` coins for `itemId` at time `now`. */
  function Recorded(st: Statistics, itemId: string, p: real, now: int): Statistics
  {
    st.(totalProfit := st.totalProfit + p,
        sessionProfit := st.sessionProfit + p,
        flipsCompleted := st.flipsCompleted + 1,
        profitHistory := WithinHour(st.profitHistory + [HistoryEntry(now, p)], now),
        bestFlip := BestAfter(st.bestFlip, itemId, p),
        dailyStats := DayAfter(st.dailyStats, DayKey(now), p))
  }

  /**
   * After a flip the history ends with the new entry and before it holds
   * exactly the earlier entries of the last hour, in their order.
   */
  lemma RecordedHistory(st: Statistics, itemId: string, p: real, now: int)
    ensures Recorded(st, itemId, p, now).profitHistory ==
              WithinHour(st.profitHistory, now) + [HistoryEntry(now, p)]
    ensures forall e :: e in Recorded(st, itemId, p, now).profitHistory <==>
              e == HistoryEntry(now, p) || (e in st.profitHistory && e.timestamp >= now - HourMillis)
  {
    var e := HistoryEntry(now, p);
    WithinHourAppend(st.profitHistory, [e], now);
    assert [e][..0] == [];
    WithinHourMembers(st.profitHistory, now);
  }

  /** Recording at a time no earlier than every entry keeps the history chronological. */
  lemma RecordedChronological(st: Statistics, itemId: string, p: real, now: int)
    requires Chronological(st.profitHistory)
    requires forall e :: e in st.profitHistory ==> e.timestamp <= now
    ensures Chronological(Recorded(st, itemId, p, now).profitHistory)
  {
    RecordedHistory(st, itemId, p, now);
    WithinHourChronological(st.profitHistory, now);
    WithinHourMembers(st.profitHistory, now);
    var w := WithinHour(st.profitHistory, now);
    forall k | 0 <= k < |w| ensures w[k].timestamp <= now {
      assert w[k] in st.profitHistory;
    }
  }

  /** `recordFlip` applied to a sequence of completed flips, in order. */
  function RecordAll(st: Statistics, cs: seq<Completion>): Statistics
  {
    if cs == [] then st
    else
      var last := cs[|cs| - 1];
      Recorded(RecordAll(st, cs[..|cs| - 1]), last.itemId, last.profit, last.at)
  }

  /** One more completed flip is one more `recordFlip`. */
  lemma RecordAllSnoc(st: Statistics, cs: seq<Completion>, c: Completion)
    ensures RecordAll(st, cs + [c]) == Recorded(RecordAll(st, cs), c.itemId, c.profit, c.at)
  {
    assert (cs + [c])[..|cs|] == cs;
  }

  function SumProfits(cs: seq<Completion>): real
  {
    if cs == [] then 0.0 else SumProfits(cs[..|cs| - 1]) + cs[|cs| - 1].profit
  }

  /** Over any run of flips the totals grow by the sum of their profits and the count by their number. */
  lemma {:induction false} RecordAllTotals(st: Statistics, cs: seq<Completion>)
    ensures RecordAll(st, cs).totalProfit == st.totalProfit + SumProfits(cs)
    ensures RecordAll(st, cs).sessionProfit == st.sessionProfit + SumProfits(cs)
    ensures RecordAll(st, cs).flipsCompleted == st.flipsCompleted + |cs|
  {
    if cs != [] {
      RecordAllTotals(st, cs[..|cs| - 1]);
    }
  }

  /**
   * Over any run of flips the best flip is at least every profit recorded, and
   * is either the one before the run or one of the run's flips.
   */
  lemma {:induction false} RecordAllBest(st: Statistics, cs: seq<Completion>)
    ensures var b := RecordAll(st, cs).bestFlip;
              b.profit >= st.bestFlip.profit &&
              (forall k :: 0 <= k < |cs| ==> cs[k].profit <= b.profit) &&
              (b == st.bestFlip || exists k :: 0 <= k < |cs| && b == BestFlip(Some(cs[k].itemId), cs[k].profit))
  {
    if cs != [] {
      var init := cs[..|cs| - 1];
      RecordAllBest(st, init);
      var b0 := RecordAll(st, init).bestFlip;
      var b := RecordAll(st, cs).bestFlip;
      assert forall k :: 0 <= k < |init| ==> init[k] == cs[k];
      if b != b0 {
        assert b == BestFlip(Some(cs[|cs| - 1].itemId), cs[|cs| - 1].profit);
      } else if b0 != st.bestFlip {
        var k :| 0 <= k < |init| && b0 == BestFlip(Some(init[k].itemId), init[k].profit);
        assert cs[k] == init[k];
      }
    }
  }

  // ---------------------------------------------------------------------------
  // The hourly rate
  // ---------------------------------------------------------------------------

  function SumHistory(h: seq<HistoryEntry>): real
  {
    if h == [] then 0.0 else SumHistory(h[..|h| - 1]) + h[|h| - 1].profit
  }

  /** The span test of `updateHourlyProfit`, `(now - oldest) / 3600000 > 0.1`, in milliseconds. */
  lemma SpanThreshold(now: int, oldest: int)
    ensures ((now - oldest) as real) / 3600000.0 > 0.1 <==> now - oldest > 360000
  {
  }

  // ---------------------------------------------------------------------------
  // The file
  // ---------------------------------------------------------------------------

  /** The durable subset `saveStatistics` writes at time `now`. */
  function Saved(st: Statistics, now: int): SavedRecord
  {
    SavedRecord(Some(st.totalProfit), Some(st.flipsCompleted), Some(st.bestFlip), Some(st.dailyStats), Some(now))
  }

  function GetOr<T>(o: Option<T>, default: T): T
  {
    match o case Some(v) => v case None => default
  }

  /** The statistics after `loadStatistics` found `rec`: absent fields take their initial values. */
  function Restore(st: Statistics, rec: SavedRecord): (r: Statistics)
    ensures r.sessionProfit == st.sessionProfit && r.profitHistory == st.profitHistory
    ensures r.startTimestamp == st.startTimestamp && r.lastResetTimestamp == st.lastResetTimestamp
    ensures r.lastHourProfit == st.lastHourProfit
    ensures rec.totalProfit.None? ==> r.totalProfit == 0.0
    ensures rec.flipsCompleted.None? ==> r.flipsCompleted == 0
    ensures rec.bestFlip.None? ==> r.bestFlip == BestFlip(None, 0.0)
    ensures rec.dailyStats.None? ==> r.dailyStats == map[]
    ensures rec.totalProfit.Some? ==> r.totalProfit == rec.totalProfit.value
    ensures rec.flipsCompleted.Some? ==> r.flipsCompleted == rec.flipsCompleted.value
    ensures rec.bestFlip.Some? ==> r.bestFlip == rec.bestFlip.value
    ensures rec.dailyStats.Some? ==> r.dailyStats == rec.dailyStats.value
  {
    st.(totalProfit := GetOr(rec.totalProfit, 0.0),
        flipsCompleted := GetOr(rec.flipsCompleted, 0),
        bestFlip := GetOr(rec.bestFlip, BestFlip(None, 0.0)),
        dailyStats := GetOr(rec.dailyStats, map[]))
  }

  /**
   * Loading what was saved brings back the four durable fields of the saved
   * statistics and keeps everything else of the statistics it is loaded into.
   */
  lemma SaveLoadRoundTrip(saved: Statistics, current: Statistics, now: int)
    ensures var r := Restore(current, Saved(saved, now));
              r.totalProfit == saved.totalProfit && r.flipsCompleted == saved.flipsCompleted &&
              r.bestFlip == saved.bestFlip && r.dailyStats == saved.dailyStats &&
              r.sessionProfit == current.sessionProfit && r.profitHistory == current.profitHistory
  {
  }

  /** What `getStatistics` returns. */
  datatype Summary = Summary(
    totalProfit: real,
    sessionProfit: real,
    flipsCompleted: nat,
    hourlyProfit: real,
    sessionTime: real,
    bestFlip: BestFlip,
    dailyStats: map<int, DayStats>)

  /** The module-level `statistics` object together with the statistics file. */
  class ProfitTracker {
    var totalProfit: real
    var flipsCompleted: nat
    var startTimestamp: int
    var sessionProfit: real
    var lastResetTimestamp: int
    var profitHistory: seq<HistoryEntry>
    var lastHourProfit: real
    var bestFlip: BestFlip
    var dailyStats: map<int, DayStats>
    var file: StoredFile

    function Stats(): Statistics
      reads this`totalProfit, this`flipsCompleted, this`startTimestamp, this`sessionProfit,
            this`lastResetTimestamp, this`profitHistory, this`lastHourProfit, this`bestFlip, this`dailyStats
    {
      Statistics(totalProfit, flipsCompleted, startTimestamp, sessionProfit, lastResetTimestamp,
                 profitHistory, lastHourProfit, bestFlip, dailyStats)
    }

    /** The statistics as the module starts, beside whatever the file already holds. */
    constructor(stored: StoredFile)
      ensures Stats() == InitialStatistics && file == stored
    {
      totalProfit, flipsCompleted, startTimestamp := 0.0, 0, 0;
      sessionProfit, lastResetTimestamp := 0.0, 0;
      profitHistory, lastHourProfit := [], 0.0;
      bestFlip, dailyStats := BestFlip(None, 0.0), map[];
      file := stored;
    }

    /** `saveStatistics`: the durable subset replaces the file. */
    method SaveStatistics(now: int)
      modifies this`file
      ensures file == Json(Saved(Stats(), now))
    {
      file := Json(SavedRecord(Some(totalProfit), Some(flipsCompleted), Some(bestFlip), Some(dailyStats), Some(now)));
    }

    /**
     * `loadStatistics`: a record found in the file is restored; a missing
     * file, one that does not parse and a `null` record change nothing.
     */
    method LoadStatistics() returns (loaded: bool)
      modifies this
      ensures file == old(file)
      ensures loaded <==> old(file).Json?
      ensures loaded ==> Stats() == Restore(old(Stats()), old(file).record)
      ensures !loaded ==> Stats() == old(Stats())
    {
      match file
      case Json(rec) =>
        totalProfit := GetOr(rec.totalProfit, 0.0);
        flipsCompleted := GetOr(rec.flipsCompleted, 0);
        bestFlip := GetOr(rec.bestFlip, BestFlip(None, 0.0));
        dailyStats := GetOr(rec.dailyStats, map[]);
        loaded := true;
      case _ =>
        loaded := false;
    }

    /** `recordFlip`: totals, history, best flip and day bucket, then the file. */
    method RecordFlip(itemId: string, actualProfit: real, now: int)
      modifies this
      ensures Stats() == Recorded(old(Stats()), itemId, actualProfit, now)
      ensures file == Json(Saved(Stats(), now))
    {
      ghost var before := Stats();
      totalProfit := totalProfit + actualProfit;
      sessionProfit := sessionProfit + actualProfit;
      flipsCompleted := flipsCompleted + 1;
      profitHistory := WithinHour(profitHistory + [HistoryEntry(now, actualProfit)], now);
      if actualProfit > bestFlip.profit {
        bestFlip := BestFlip(Some(itemId), actualProfit);
      }
      assert bestFlip == BestAfter(before.bestFlip, itemId, actualProfit);
      var today := DayKey(now);
      var day := if today in dailyStats then dailyStats[today] else DayStats(0.0, 0);
      dailyStats := dailyStats[today := DayStats(day.profit + actualProfit, day.flips + 1)];
      assert dailyStats == DayAfter(before.dailyStats, today, actualProfit);
      assert Stats() == Recorded(before, itemId, actualProfit, now);
      SaveStatistics(now);
    }

    /**
     * `updateHourlyProfit`: when the oldest entry is more than six minutes
     * old, the rate becomes the summed profit per hour of that span;
     * otherwise it is left as it was.
     */
    method UpdateHourlyProfit(now: int)
      modifies this`lastHourProfit
      ensures var h := profitHistory;
              if h != [] && now - h[0].timestamp > 360000 then
                lastHourProfit * ((now - h[0].timestamp) as real) == SumHistory(h) * 3600000.0
              else lastHourProfit == old(lastHourProfit)
    {
      var totalHourProfit := 0.0;
      for i := 0 to |profitHistory|
        invariant totalHourProfit == SumHistory(profitHistory[..i])
      {
        assert profitHistory[..i + 1][..i] == profitHistory[..i];
        totalHourProfit := totalHourProfit + profitHistory[i].profit;
      }
      assert profitHistory[..|profitHistory|] == profitHistory;
      if |profitHistory| > 0 {
        var oldestEntry := profitHistory[0].timestamp;
        var timeSpan := ((now - oldestEntry) as real) / 3600000.0;
        if timeSpan > 0.1 {
          lastHourProfit := totalHourProfit / timeSpan;
        }
      }
    }

    /** `getStatistics`: the figures, with the session length in hours. */
    function GetStatistics(now: int): (r: Summary)
      reads this
      ensures r.sessionTime * 3600000.0 == (now - startTimestamp) as real
      ensures r.hourlyProfit == lastHourProfit
      ensures r.totalProfit == totalProfit && r.sessionProfit == sessionProfit
      ensures r.flipsCompleted == flipsCompleted && r.bestFlip == bestFlip && r.dailyStats == dailyStats
    {
      Summary(totalProfit, sessionProfit, flipsCompleted, lastHourProfit,
              ((now - startTimestamp) as real) / 3600000.0, bestFlip, dailyStats)
    }

    /** `resetSessionStats`: only the session profit and the reset time change. */
    method ResetSessionStats(now: int)
      modifies this`sessionProfit, this`lastResetTimestamp
      ensures Stats() == old(Stats()).(sessionProfit := 0.0, lastResetTimestamp := now)
    {
      sessionProfit := 0.0;
      lastResetTimestamp := now;
    }

    /** `initialize`: stamp the session, load the file, compute the rate. */
    method Initialize(now: int) returns (loaded: bool)
      modifies this
      ensures file == old(file)
      ensures startTimestamp == now && lastResetTimestamp == now
      ensures loaded <==> old(file).Json?
      ensures var st := old(Stats()).(startTimestamp := now, lastResetTimestamp := now);
              var restored := if loaded then Restore(st, old(file).record) else st;
              Stats() == restored.(lastHourProfit := lastHourProfit)
      ensures var h := profitHistory;
              if h != [] && now - h[0].timestamp > 360000 then
                lastHourProfit * ((now - h[0].timestamp) as real) == SumHistory(h) * 3600000.0
              else lastHourProfit == old(lastHourProfit)
    {
      startTimestamp := now;
      lastResetTimestamp := now;
      loaded := LoadStatistics();
      UpdateHourlyProfit(now);
    }
  }
}
