/**
 * Scoring of bazaar quotes: the fee-adjusted profit of buying at the quick
 * buy price and selling at the quick sell price, the price-gap guard, the
 * order-size tiers, the ranking of the candidates, and the cache in front of
 * the bazaar endpoint.
 */
module Market {
  import opened Wrappers
  import opened Config

  // ---------------------------------------------------------------------------
  // The bazaar snapshot
  // ---------------------------------------------------------------------------

  /** `quick_status` of a product; each number may be absent from the reply. */
  datatype QuickStatus = QuickStatus(buyPrice: Option<real>, sellPrice: Option<real>, volume: Option<real>)

  /** One entry of `buy_summary`; only its `amount` is read. */
  datatype SummaryEntry = SummaryEntry(amount: Option<real>)

  datatype Product = Product(quickStatus: Option<QuickStatus>, buySummary: seq<SummaryEntry>)

  /** The `products` object of the reply, as its keys and values in key order. */
  type Snapshot = seq<(string, Product)>

  /** A flip opportunity as `findBestFlips` reports it. */
  datatype Flip = Flip(itemId: string, buyPrice: real, sellPrice: real, profit: real,
                       profitPercentage: real, amount: nat, volume: Option<real>)

  /** The bazaar tax of 1.25 percent, charged on the buy price. */
  const BazaarTax: real := 0.0125

  // ---------------------------------------------------------------------------
  // Profit
  // ---------------------------------------------------------------------------

  /** Coins earned per item: the sell price, less the buy price, less the tax on the buy price. */
  function Profit(buy: real, sell: real): real
  {
    sell - buy - buy * BazaarTax
  }

  /** The profit as a percentage of the buy price. */
  function ProfitPercentage(buy: real, sell: real): (pct: real)
    requires buy > 0.0
    ensures pct * buy == Profit(buy, sell) * 100.0
    ensures pct >= 0.0 <==> sell >= buy * (1.0 + BazaarTax)
  {
    Profit(buy, sell) / buy * 100.0
  }

  /** Buying at 100 and selling at 105 earns 3.75 coins, 3.75 percent. */
  lemma ProfitExampleSmall()
    ensures Profit(100.0, 105.0) == 3.75 && ProfitPercentage(100.0, 105.0) == 3.75
  {
  }

  /** Buying at 1000 and selling at 1100 earns 87.5 coins, 8.75 percent. */
  lemma ProfitExampleLarge()
    ensures Profit(1000.0, 1100.0) == 87.5 && ProfitPercentage(1000.0, 1100.0) == 8.75
  {
  }

  // ---------------------------------------------------------------------------
  // The price-gap guard
  // ---------------------------------------------------------------------------

  /** `isMarketManipulated`: the sell price is more than `maxPriceGap` times the buy price. */
  function IsMarketManipulated(buy: real, sell: real, maxPriceGap: real): (r: bool)
    requires buy > 0.0
    ensures r <==> sell > maxPriceGap * buy
  {
    sell / buy > maxPriceGap
  }

  /** A gap of exactly `maxPriceGap` is not flagged. */
  lemma GapAtLimitNotFlagged(buy: real, maxPriceGap: real)
    requires buy > 0.0
    ensures !IsMarketManipulated(buy, maxPriceGap * buy, maxPriceGap)
  {
  }

  // ---------------------------------------------------------------------------
  // Order size
  // ---------------------------------------------------------------------------

  /**
   * The depth `calculateOptimalAmount` reads: nothing when `buy_summary` is
   * empty, otherwise the first entry's amount, and 64 when that amount is
   * missing or 0 (`amount || 64`).
   */
  function AvailableVolume(buySummary: seq<SummaryEntry>): real
  {
    if |buySummary| == 0 then 0.0
    else match buySummary[0].amount
      case Some(a) => if a == 0.0 then 64.0 else a
      case None => 64.0
  }

  function Min(a: real, b: real): real { if a <= b then a else b }

  /** The order sizes the rounding can produce: 1 to 16 and a full stack of 64. */
  predicate IsTier(n: int) { 1 <= n <= 16 || n == 64 }

  /**
   * `calculateOptimalAmount`: the depth capped by `maxItemAmount` and by one
   * stack of 64, rounded down to a full stack, a quarter stack or a whole
   * number, and never below 1.
   */
  function OptimalAmount(buySummary: seq<SummaryEntry>, maxItemAmount: real): (r: nat)
    ensures IsTier(r)
    ensures var cap := Min(Min(AvailableVolume(buySummary), maxItemAmount), 64.0);
              (r as real <= cap || r == 1) &&
              (forall t :: IsTier(t) && t as real <= cap ==> t <= r)
  {
    var cap := Min(Min(AvailableVolume(buySummary), maxItemAmount), 64.0);
    if cap >= 64.0 then 64
    else if cap >= 16.0 then 16
    else if cap.Floor >= 1 then cap.Floor
    else 1
  }

  /** The three tiers spelled out: 64 from a full stack, 16 from a quarter stack, the whole part below. */
  lemma OptimalAmountTiers(buySummary: seq<SummaryEntry>, maxItemAmount: real)
    ensures var cap := Min(Min(AvailableVolume(buySummary), maxItemAmount), 64.0);
            var r := OptimalAmount(buySummary, maxItemAmount);
              (r == 64 <==> cap >= 64.0) &&
              (r == 16 <==> 16.0 <= cap < 64.0) &&
              (cap < 16.0 ==> r == if cap.Floor >= 1 then cap.Floor else 1)
  {
    var cap := Min(Min(AvailableVolume(buySummary), maxItemAmount), 64.0);
    var r := OptimalAmount(buySummary, maxItemAmount);
    if cap < 16.0 {
      assert r as real <= cap || r == 1;
      if cap.Floor >= 1 {
        assert IsTier(cap.Floor) && cap.Floor as real <= cap;
      }
    } else if cap < 64.0 {
      assert IsTier(16);
    } else {
      assert IsTier(64);
    }
  }

  /** An empty `buy_summary` gives a single item. */
  lemma EmptySummaryGivesOne(maxItemAmount: real)
    ensures OptimalAmount([], maxItemAmount) == 1
  {
  }

  /** A first entry with amount 0 counts as a full stack, not as no depth. */
  lemma ZeroDepthGivesFullStack(rest: seq<SummaryEntry>, maxItemAmount: real)
    requires maxItemAmount >= 64.0
    ensures OptimalAmount([SummaryEntry(Some(0.0))] + rest, maxItemAmount) == 64
  {
    assert ([SummaryEntry(Some(0.0))] + rest)[0].amount == Some(0.0);
  }

  // ---------------------------------------------------------------------------
  // Candidates
  // ---------------------------------------------------------------------------

  /**
   * The flip a product offers, before any threshold: nothing without
   * `quick_status` or without positive buy and sell prices.
   */
  function Quote(itemId: string, p: Product, maxItemAmount: real): Option<Flip>
  {
    match p.quickStatus
    case None => None
    case Some(q) =>
      if q.buyPrice.Some? && q.sellPrice.Some? && q.buyPrice.value > 0.0 && q.sellPrice.value > 0.0 then
        var buy, sell := q.buyPrice.value, q.sellPrice.value;
        Some(Flip(itemId, buy, sell, Profit(buy, sell), ProfitPercentage(buy, sell),
                  OptimalAmount(p.buySummary, maxItemAmount), q.volume))
      else None
  }

  /** What every reported flip promises under the settings `s`. */
  predicate Acceptable(f: Flip, s: Settings)
  {
    && f.buyPrice > 0.0 && f.sellPrice > 0.0
    && f.profit == f.sellPrice - f.buyPrice - f.buyPrice * BazaarTax
    && f.profitPercentage * f.buyPrice == f.profit * 100.0
    && f.profitPercentage >= s.minProfitPercentage
    && f.profit >= s.minProfitAmount
    && (s.enableManipulationProtection ==> f.sellPrice <= s.maxPriceGap * f.buyPrice)
    && (f.volume.Some? ==> f.volume.value >= s.minItemVolume)
    && IsTier(f.amount)
  }

  /**
   * One step of the product loop of `findBestFlips`: the product is reported
   * when its prices are valid, its profit meets both thresholds, the
   * price-gap guard (when enabled) does not flag it, and its volume is not
   * below the floor. A missing volume is not below anything.
   */
  function Candidate(itemId: string, p: Product, s: Settings): (r: Option<Flip>)
    ensures r.Some? <==> Quote(itemId, p, s.maxItemAmount).Some? &&
                         Acceptable(Quote(itemId, p, s.maxItemAmount).value, s)
    ensures r.Some? ==> r == Quote(itemId, p, s.maxItemAmount)
  {
    if p.quickStatus.None? then None
    else
      var q := p.quickStatus.value;
      if q.buyPrice.None? || q.sellPrice.None? || q.buyPrice.value <= 0.0 || q.sellPrice.value <= 0.0 then None
      else
        var buy, sell := q.buyPrice.value, q.sellPrice.value;
        var profit := Profit(buy, sell);
        var pct := ProfitPercentage(buy, sell);
        if !(pct >= s.minProfitPercentage && profit >= s.minProfitAmount) then None
        else if s.enableManipulationProtection && IsMarketManipulated(buy, sell, s.maxPriceGap) then None
        else if q.volume.Some? && q.volume.value < s.minItemVolume then None
        else Some(Flip(itemId, buy, sell, profit, pct, OptimalAmount(p.buySummary, s.maxItemAmount), q.volume))
  }

  /** The flips collected by the product loop, in the order of the snapshot. */
  function Candidates(data: Snapshot, s: Settings): seq<Flip>
  {
    if data == [] then []
    else
      var last := data[|data| - 1];
      Candidates(data[..|data| - 1], s) +
        (match Candidate(last.0, last.1, s) case Some(f) => [f] case None => [])
  }

  /** Every collected flip is acceptable and is the quote of some product of the snapshot. */
  lemma {:induction false} CandidatesSound(data: Snapshot, s: Settings)
    ensures forall f :: f in Candidates(data, s) ==>
              Acceptable(f, s) &&
              exists i :: 0 <= i < |data| && Quote(data[i].0, data[i].1, s.maxItemAmount) == Some(f)
  {
    if data != [] {
      var init := data[..|data| - 1];
      CandidatesSound(init, s);
      forall f | f in Candidates(data, s)
        ensures Acceptable(f, s) &&
                exists i :: 0 <= i < |data| && Quote(data[i].0, data[i].1, s.maxItemAmount) == Some(f)
      {
        if f in Candidates(init, s) {
          var i :| 0 <= i < |init| && Quote(init[i].0, init[i].1, s.maxItemAmount) == Some(f);
          assert data[i] == init[i];
        } else {
          var k := |data| - 1;
          assert Quote(data[k].0, data[k].1, s.maxItemAmount) == Some(f);
        }
      }
    }
  }

  /** Every acceptable product of the snapshot is collected. */
  lemma {:induction false} CandidatesComplete(data: Snapshot, s: Settings, i: nat)
    requires i < |data|
    requires Quote(data[i].0, data[i].1, s.maxItemAmount).Some?
    requires Acceptable(Quote(data[i].0, data[i].1, s.maxItemAmount).value, s)
    ensures Quote(data[i].0, data[i].1, s.maxItemAmount).value in Candidates(data, s)
  {
    var init := data[..|data| - 1];
    if i < |data| - 1 {
      assert init[i] == data[i];
      CandidatesComplete(init, s, i);
    }
  }

  // ---------------------------------------------------------------------------
  // Ranking
  // ---------------------------------------------------------------------------

  predicate SortedDesc(fs: seq<Flip>)
  {
    forall i, j :: 0 <= i < j < |fs| ==> fs[i].profitPercentage >= fs[j].profitPercentage
  }

  /** Inserts `f` after every flip whose percentage is at least its own. */
  function InsertDesc(f: Flip, fs: seq<Flip>): (r: seq<Flip>)
    ensures multiset(r) == multiset(fs) + multiset{f}
  {
    if fs == [] then [f]
    else if fs[0].profitPercentage >= f.profitPercentage then
      assert fs == [fs[0]] + fs[1..];
      [fs[0]] + InsertDesc(f, fs[1..])
    else
      [f] + fs
  }

  /** A bound on the percentages of `fs` and of `f` bounds the percentages after the insertion. */
  lemma {:induction false} InsertDescBound(f: Flip, fs: seq<Flip>, b: real)
    requires f.profitPercentage <= b
    requires forall k :: 0 <= k < |fs| ==> fs[k].profitPercentage <= b
    ensures forall k :: 0 <= k < |InsertDesc(f, fs)| ==> InsertDesc(f, fs)[k].profitPercentage <= b
  {
    if fs != [] && fs[0].profitPercentage >= f.profitPercentage {
      InsertDescBound(f, fs[1..], b);
    }
  }

  lemma {:induction false} InsertDescSorted(f: Flip, fs: seq<Flip>)
    requires SortedDesc(fs)
    ensures SortedDesc(InsertDesc(f, fs))
  {
    if fs != [] && fs[0].profitPercentage >= f.profitPercentage {
      var rest := InsertDesc(f, fs[1..]);
      InsertDescSorted(f, fs[1..]);
      InsertDescBound(f, fs[1..], fs[0].profitPercentage);
      assert InsertDesc(f, fs) == [fs[0]] + rest;
    }
  }

  /**
   * `flips.sort((a, b) => b.profitPercentage - a.profitPercentage)`: a stable
   * sort by percentage alone, highest first. Equal percentages keep the order
   * of the snapshot, whatever their profits.
   */
  function SortDesc(fs: seq<Flip>): (r: seq<Flip>)
    ensures multiset(r) == multiset(fs)
    ensures SortedDesc(r)
  {
    if fs == [] then []
    else
      assert fs == fs[..|fs| - 1] + [fs[|fs| - 1]];
      var sorted := SortDesc(fs[..|fs| - 1]);
      InsertDescSorted(fs[|fs| - 1], sorted);
      InsertDesc(fs[|fs| - 1], sorted)
  }

  /** Two flips of the same percentage stay in snapshot order even when the later one earns more. */
  lemma NoProfitTieBreak(a: Flip, b: Flip)
    requires a.profitPercentage == b.profitPercentage && a.profit < b.profit
    ensures SortDesc([a, b]) == [a, b]
  {
    assert [a, b][..1] == [a];
  }

  /** `slice(0, n)`. */
  function Take(fs: seq<Flip>, n: nat): (r: seq<Flip>)
    ensures |r| <= n && r <= fs
    ensures |fs| <= n ==> r == fs
    ensures |fs| > n ==> |r| == n
  {
    if |fs| <= n then fs else fs[..n]
  }

  /**
   * A collected flip that is left out of the top `n` is outranked: the
   * result is full and every reported flip has at least its percentage.
   */
  lemma TopIsBest(cs: seq<Flip>, n: nat, c: Flip)
    requires c in cs
    ensures var best := Take(SortDesc(cs), n);
              c in best || (|best| == n && forall f :: f in best ==> f.profitPercentage >= c.profitPercentage)
  {
    var t := SortDesc(cs);
    assert c in multiset(t);
    var j :| 0 <= j < |t| && t[j] == c;
    var best := Take(t, n);
    if j >= |best| {
      assert |best| == n;
      forall f | f in best ensures f.profitPercentage >= c.profitPercentage {
        var i :| 0 <= i < |best| && best[i] == f;
        assert t[i] == f;
      }
    } else {
      assert best[j] == c;
    }
  }

  /**
   * `findBestFlips`: collect the acceptable products in snapshot order, sort
   * them by percentage, highest first, and keep the first `maxItems`.
   */
  method FindBestFlips(data: Snapshot, s: Settings, maxItems: nat) returns (best: seq<Flip>)
    ensures best == Take(SortDesc(Candidates(data, s)), maxItems)
    ensures |best| <= maxItems && SortedDesc(best)
    ensures forall f :: f in best ==>
              Acceptable(f, s) &&
              exists i :: 0 <= i < |data| && Quote(data[i].0, data[i].1, s.maxItemAmount) == Some(f)
  {
    var flips: seq<Flip> := [];
    for i := 0 to |data|
      invariant flips == Candidates(data[..i], s)
    {
      assert data[..i + 1][..i] == data[..i];
      var (productId, product) := data[i];
      var c := Candidate(productId, product, s);
      if c.Some? {
        flips := flips + [c.value];
      }
    }
    assert data[..|data|] == data;
    var sorted := SortDesc(flips);
    best := Take(sorted, maxItems);
    CandidatesSound(data, s);
    forall f | f in best ensures f in flips {
      assert f in multiset(sorted);
    }
  }

  // ---------------------------------------------------------------------------
  // The snapshot cache
  // ---------------------------------------------------------------------------

  /** What the bazaar endpoint gave: a failed request, or a parsed reply. */
  datatype FetchResponse = TransportFailure | Reply(success: bool, products: Snapshot)

  /** Why `fetchBazaarData` threw. */
  datatype FetchError = RequestFailed | Unsuccessful

  /** The module-level cache of `fetchBazaarData`. */
  class SnapshotCache {
    var cachedBazaarData: Option<Snapshot>
    var lastFetchTimestamp: int

    constructor()
      ensures cachedBazaarData == None && lastFetchTimestamp == 0
    {
      cachedBazaarData := None;
      lastFetchTimestamp := 0;
    }

    /** The cache is served: it holds data fetched less than 90 percent of a scan interval ago. */
    predicate Fresh(now: int, scanInterval: int)
      reads this
    {
      cachedBazaarData.Some? && ((now - lastFetchTimestamp) as real) < (scanInterval as real) * 0.9
    }

    /**
     * The synchronous part of `fetchBazaarData` at time `now`: the cached
     * snapshot when it is fresh, and `None` when a request has to be made.
     */
    method CachedData(now: int, scanInterval: int) returns (hit: Option<Snapshot>)
      ensures hit.Some? <==> Fresh(now, scanInterval)
      ensures hit.Some? ==> cachedBazaarData == hit
    {
      if Fresh(now, scanInterval) {
        hit := cachedBazaarData;
      } else {
        hit := None;
      }
    }

    /**
     * The rest of `fetchBazaarData`, once the request made at time
     * `requestedAt` has its `response`: a successful reply replaces the
     * cache, stamped with the time of the request; a failure leaves both
     * alone and is reported, not covered by older data.
     */
    method StoreResponse(requestedAt: int, response: FetchResponse) returns (r: Result<Snapshot, FetchError>)
      modifies this
      ensures response.Reply? && response.success ==>
                r == Ok(response.products) &&
                cachedBazaarData == Some(response.products) && lastFetchTimestamp == requestedAt
      ensures response.TransportFailure? ==> r == Err(RequestFailed) && unchanged(this)
      ensures response.Reply? && !response.success ==> r == Err(Unsuccessful) && unchanged(this)
    {
      match response
      case TransportFailure =>
        r := Err(RequestFailed);
      case Reply(success, products) =>
        if !success {
          r := Err(Unsuccessful);
        } else {
          cachedBazaarData := Some(products);
          lastFetchTimestamp := requestedAt;
          r := Ok(products);
        }
    }

    /**
     * `fetchBazaarData` at time `now` when the answer arrives before anything
     * else happens; `response` is what the endpoint answers, consulted only
     * when a request is made (`requested`).
     */
    method FetchBazaarData(now: int, scanInterval: int, response: FetchResponse)
      returns (r: Result<Snapshot, FetchError>, requested: bool)
      modifies this
      ensures requested <==> !old(Fresh(now, scanInterval))
      ensures !requested ==> r == Ok(old(cachedBazaarData).value) && unchanged(this)
      ensures requested && response.Reply? && response.success ==>
                r == Ok(response.products) &&
                cachedBazaarData == Some(response.products) && lastFetchTimestamp == now
      ensures requested && response.TransportFailure? ==> r == Err(RequestFailed) && unchanged(this)
      ensures requested && response.Reply? && !response.success ==> r == Err(Unsuccessful) && unchanged(this)
    {
      var hit := CachedData(now, scanInterval);
      if hit.Some? {
        return Ok(hit.value), false;
      }
      requested := true;
      r := StoreResponse(now, response);
    }
  }

  /**
   * A successful fetch is served again, without a request, to every call made
   * before 90 percent of the scan interval has passed.
   */
  method FetchThenCacheHit(cache: SnapshotCache, t0: int, t1: int, scanInterval: int,
                           products: Snapshot, other: FetchResponse)
    returns (first: Result<Snapshot, FetchError>, second: Result<Snapshot, FetchError>, requested: bool)
    requires !cache.Fresh(t0, scanInterval)
    requires t0 <= t1 && ((t1 - t0) as real) < (scanInterval as real) * 0.9
    modifies cache
    ensures first == Ok(products) && second == Ok(products) && !requested
  {
    var req0;
    first, req0 := cache.FetchBazaarData(t0, scanInterval, Reply(true, products));
    second, requested := cache.FetchBazaarData(t1, scanInterval, other);
  }
}
