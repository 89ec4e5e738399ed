/**
 * The flip engine: budget admission of the ranked flips, the buy order each
 * admitted flip places, the per-order state machine that times orders out or
 * completes them, and the start/stop guards around it.
 */
module Engine {
  import opened Wrappers
  import opened Config
  import Coins
  import Market
  import Ledger

  /** `status` of an active flip. */
  datatype Status = Buying | Selling

  /** An entry of `activeFlips`. */
  datatype ActiveFlip = ActiveFlip(itemId: string, buyPrice: real, sellPrice: real, amount: nat,
                                   profit: real, profitPercentage: real, status: Status,
                                   timestamp: int, totalCost: real)

  // ---------------------------------------------------------------------------
  // Budget
  // ---------------------------------------------------------------------------

  /** The coins bound in open buy orders: `buyPrice * amount` of every buying flip. */
  function Reserved(flips: seq<ActiveFlip>): real
  {
    if flips == [] then 0.0
    else
      var last := flips[|flips| - 1];
      Reserved(flips[..|flips| - 1]) + (if last.status == Buying then last.buyPrice * last.amount as real else 0.0)
  }

  lemma {:induction false} ReservedAppend(a: seq<ActiveFlip>, b: seq<ActiveFlip>)
    ensures Reserved(a + b) == Reserved(a) + Reserved(b)
  {
    if b == [] {
      assert a + b == a;
    } else {
      assert (a + b)[..|a + b| - 1] == a + b[..|b| - 1];
      ReservedAppend(a, b[..|b| - 1]);
    }
  }

  /** Selling flips bind no coins. */
  lemma {:induction false} ReservedIgnoresSelling(flips: seq<ActiveFlip>)
    requires forall k :: 0 <= k < |flips| ==> flips[k].status == Selling
    ensures Reserved(flips) == 0.0
  {
    if flips != [] {
      ReservedIgnoresSelling(flips[..|flips| - 1]);
    }
  }

  /** The accumulator loop of `hasSufficientBudget`. */
  method SumReserved(flips: seq<ActiveFlip>) returns (reservedFunds: real)
    ensures reservedFunds == Reserved(flips)
  {
    reservedFunds := 0.0;
    for i := 0 to |flips|
      invariant reservedFunds == Reserved(flips[..i])
    {
      assert flips[..i + 1][..i] == flips[..i];
      if flips[i].status == Buying {
        reservedFunds := reservedFunds + flips[i].buyPrice * flips[i].amount as real;
      }
    }
    assert flips[..|flips|] == flips;
  }

  /** The test of `hasSufficientBudget`: purse, less the safety reserve, less what open buy orders bind. */
  predicate CanAfford(purse: real, minPurseSafety: real, flips: seq<ActiveFlip>, cost: real)
  {
    purse - minPurseSafety - Reserved(flips) >= cost
  }

  /**
   * With 1,000,000 coins, a reserve of 100,000 and one buy order of 200,000
   * (a sell order beside it binds nothing), 700,000 is affordable and
   * 700,001 is not.
   */
  lemma BudgetExample(itemId: string)
    ensures var open := [ActiveFlip(itemId, 2000.0, 2100.0, 100, 0.0, 0.0, Buying, 0, 200000.0),
                         ActiveFlip(itemId, 5000.0, 5200.0, 64, 0.0, 0.0, Selling, 0, 320000.0)];
              CanAfford(1000000.0, 100000.0, open, 700000.0) &&
              !CanAfford(1000000.0, 100000.0, open, 700001.0)
  {
    var a := ActiveFlip(itemId, 2000.0, 2100.0, 100, 0.0, 0.0, Buying, 0, 200000.0);
    var b := ActiveFlip(itemId, 5000.0, 5200.0, 64, 0.0, 0.0, Selling, 0, 320000.0);
    assert [a, b][..1] == [a];
    assert [a][..0] == [];
    assert Reserved([a]) == 200000.0;
    assert Reserved([a, b]) == Reserved([a]) + 0.0;
  }

  /** `updatePlayerPurse`: a reading above 0 replaces the purse; 0 (nothing found) keeps it. */
  function PurseAfter(purse: real, lines: seq<string>): (r: real)
    ensures r == purse || (r > 0.0 && r == Coins.ScoreboardPurse(lines))
    ensures Coins.ScoreboardPurse(lines) > 0.0 ==> r == Coins.ScoreboardPurse(lines)
  {
    var newPurse := Coins.ScoreboardPurse(lines);
    if newPurse > 0.0 then newPurse else purse
  }

  /** Reading the same scoreboard twice is reading it once. */
  lemma PurseAfterIdempotent(purse: real, lines: seq<string>)
    ensures PurseAfter(PurseAfter(purse, lines), lines) == PurseAfter(purse, lines)
  {
  }

  // ---------------------------------------------------------------------------
  // Admission
  // ---------------------------------------------------------------------------

  /** The record `executeFlip` appends for `flip` at time `now`. */
  function NewOrder(flip: Market.Flip, now: int): (r: ActiveFlip)
    ensures r.status == Buying && r.timestamp == now
    ensures r.totalCost == flip.buyPrice * flip.amount as real
    ensures Reserved([r]) == r.totalCost
  {
    var r := ActiveFlip(flip.itemId, flip.buyPrice, flip.sellPrice, flip.amount, flip.profit,
                        flip.profitPercentage, Buying, now, flip.buyPrice * flip.amount as real);
    assert [r][..0] == [];
    r
  }

  /** Whether the admission loop places an order for `flip` beside the open orders `active`. */
  predicate Admits(active: seq<ActiveFlip>, flip: Market.Flip, s: Settings, purse: real)
  {
    && |active| < s.maxConcurrentFlips
    && (!s.useBudgetCheck || CanAfford(purse, s.minPurseSafety, active, flip.buyPrice * flip.amount as real))
  }

  /** The open orders after the admission loop over `flips`, every budget test reading `purse`. */
  function Admit(active: seq<ActiveFlip>, flips: seq<Market.Flip>, s: Settings, purse: real, now: int): seq<ActiveFlip>
    decreases |flips|
  {
    if flips == [] then active
    else
      var next := if Admits(active, flips[0], s, purse) then active + [NewOrder(flips[0], now)] else active;
      Admit(next, flips[1..], s, purse, now)
  }

  /**
   * Admission only appends: the open orders stay in front, and every new one
   * is a buy order placed at `now` for one of the offered flips.
   */
  lemma {:induction false} AdmitExtends(active: seq<ActiveFlip>, flips: seq<Market.Flip>, s: Settings, purse: real, now: int)
    ensures var r := Admit(active, flips, s, purse, now);
              |active| <= |r| <= |active| + |flips| && r[..|active|] == active &&
              forall k :: |active| <= k < |r| ==>
                r[k].status == Buying && r[k].timestamp == now &&
                exists j :: 0 <= j < |flips| && r[k] == NewOrder(flips[j], now)
    decreases |flips|
  {
    if flips != [] {
      var next := if Admits(active, flips[0], s, purse) then active + [NewOrder(flips[0], now)] else active;
      AdmitExtends(next, flips[1..], s, purse, now);
      var r := Admit(active, flips, s, purse, now);
      assert r == Admit(next, flips[1..], s, purse, now);
      forall k | |active| <= k < |r|
        ensures exists j :: 0 <= j < |flips| && r[k] == NewOrder(flips[j], now)
      {
        if k < |next| {
          assert r[k] == next[..|next|][k] == NewOrder(flips[0], now);
        } else {
          var j :| 0 <= j < |flips[1..]| && r[k] == NewOrder(flips[1..][j], now);
          assert flips[1..][j] == flips[j + 1];
        }
      }
      assert r[..|active|] == r[..|next|][..|active|];
    }
  }

  /** The first offered flip, when it finds room and money, becomes the first new order. */
  lemma AdmitPlacesFirst(active: seq<ActiveFlip>, flips: seq<Market.Flip>, s: Settings, purse: real, now: int)
    requires flips != [] && Admits(active, flips[0], s, purse)
    ensures var r := Admit(active, flips, s, purse, now); |r| > |active| && r[|active|] == NewOrder(flips[0], now)
  {
    var next := active + [NewOrder(flips[0], now)];
    AdmitExtends(next, flips[1..], s, purse, now);
    var r := Admit(next, flips[1..], s, purse, now);
    assert r[|active|] == r[..|next|][|active|] == next[|active|];
  }

  /** A pass never pushes the number of open orders past the larger of where it began and the cap. */
  lemma {:induction false} AdmitCap(active: seq<ActiveFlip>, flips: seq<Market.Flip>, s: Settings, purse: real, now: int)
    ensures |Admit(active, flips, s, purse, now)| <= if |active| > s.maxConcurrentFlips then |active| else s.maxConcurrentFlips
    decreases |flips|
  {
    if flips != [] {
      var next := if Admits(active, flips[0], s, purse) then active + [NewOrder(flips[0], now)] else active;
      AdmitCap(next, flips[1..], s, purse, now);
    }
  }

  /**
   * With the budget test on, each admission counts the earlier ones as bound,
   * so the coins bound in buy orders stay within the purse less the reserve
   * when they started so.
   */
  lemma {:induction false} AdmitBudget(active: seq<ActiveFlip>, flips: seq<Market.Flip>, s: Settings, purse: real, now: int)
    requires s.useBudgetCheck
    requires Reserved(active) <= purse - s.minPurseSafety
    ensures Reserved(Admit(active, flips, s, purse, now)) <= purse - s.minPurseSafety
    decreases |flips|
  {
    if flips != [] {
      var order := NewOrder(flips[0], now);
      if Admits(active, flips[0], s, purse) {
        ReservedAppend(active, [order]);
        AdmitBudget(active + [order], flips[1..], s, purse, now);
      } else {
        AdmitBudget(active, flips[1..], s, purse, now);
      }
    }
  }

  /**
   * The purse after the admission loop: it is read from the scoreboard by the
   * first budget test, which runs when the test is on and the first offered
   * flip finds room; otherwise it is not read at all.
   */
  function PurseAfterAdmission(purse: real, lines: seq<string>, openCount: int, offered: int, s: Settings): (r: real)
    ensures r == purse || r == PurseAfter(purse, lines)
    ensures !s.useBudgetCheck ==> r == purse
  {
    if s.useBudgetCheck && offered > 0 && openCount < s.maxConcurrentFlips then PurseAfter(purse, lines) else purse
  }

  // ---------------------------------------------------------------------------
  // The order lifecycle
  // ---------------------------------------------------------------------------

  /** What one pass of `checkActiveFlips` does with one order. */
  datatype Outcome = Keep(flip: ActiveFlip) | Drop | Complete(completion: Ledger.Completion)

  /**
   * One order in `checkActiveFlips`: an order older than `orderTimeout` is
   * dropped without profit; a buy order reported filled becomes a sell order
   * stamped `now`; a sell order reported filled completes with the sale less
   * the cost as its profit.
   */
  function Step(f: ActiveFlip, now: int, orderTimeout: int, filled: bool): (r: Outcome)
    ensures r.Drop? <==> now - f.timestamp > orderTimeout
    ensures r.Complete? <==> f.status == Selling && filled && now - f.timestamp <= orderTimeout
    ensures r.Complete? ==> r.completion == Ledger.Completion(f.itemId, f.sellPrice * f.amount as real - f.totalCost, now)
    ensures r.Keep? && f.status == Buying && filled ==> r.flip == f.(status := Selling, timestamp := now)
    ensures r.Keep? && !(f.status == Buying && filled) ==> r.flip == f
  {
    match f.status
    case Buying =>
      if now - f.timestamp > orderTimeout then Drop
      else if filled then Keep(f.(status := Selling, timestamp := now))
      else Keep(f)
    case Selling =>
      if now - f.timestamp > orderTimeout then Drop
      else if filled then Complete(Ledger.Completion(f.itemId, f.sellPrice * f.amount as real - f.totalCost, now))
      else Keep(f)
  }

  /** The order an outcome keeps, if any. */
  function KeptBy(o: Outcome): seq<ActiveFlip>
  {
    if o.Keep? then [o.flip] else []
  }

  /** The completion an outcome records, if any. */
  function CompletedBy(o: Outcome): seq<Ledger.Completion>
  {
    if o.Complete? then [o.completion] else []
  }

  /** The orders left after a pass, in their order; `fills[k]` is the fill report for `flips[k]`. */
  function Survivors(flips: seq<ActiveFlip>, fills: seq<bool>, now: int, orderTimeout: int): seq<ActiveFlip>
    requires |fills| == |flips|
  {
    if flips == [] then []
    else KeptBy(Step(flips[0], now, orderTimeout, fills[0])) + Survivors(flips[1..], fills[1..], now, orderTimeout)
  }

  /** The flips a pass completes, in the order the backward scan records them: last order first. */
  function Completions(flips: seq<ActiveFlip>, fills: seq<bool>, now: int, orderTimeout: int): seq<Ledger.Completion>
    requires |fills| == |flips|
  {
    if flips == [] then []
    else Completions(flips[1..], fills[1..], now, orderTimeout) + CompletedBy(Step(flips[0], now, orderTimeout, fills[0]))
  }

  /** The pass works order by order, so survivors of two runs of orders keep their relative order. */
  lemma {:induction false} SurvivorsAppend(a: seq<ActiveFlip>, b: seq<ActiveFlip>, fa: seq<bool>, fb: seq<bool>, now: int, orderTimeout: int)
    requires |fa| == |a| && |fb| == |b|
    ensures Survivors(a + b, fa + fb, now, orderTimeout) ==
              Survivors(a, fa, now, orderTimeout) + Survivors(b, fb, now, orderTimeout)
  {
    if a == [] {
      assert a + b == b && fa + fb == fb;
    } else {
      var head := KeptBy(Step(a[0], now, orderTimeout, fa[0]));
      assert (a + b)[1..] == a[1..] + b && (fa + fb)[1..] == fa[1..] + fb;
      assert (a + b)[0] == a[0] && (fa + fb)[0] == fa[0];
      SurvivorsAppend(a[1..], b, fa[1..], fb, now, orderTimeout);
      assert Survivors(a + b, fa + fb, now, orderTimeout) ==
             head + Survivors(a[1..] + b, fa[1..] + fb, now, orderTimeout);
      AppendAssoc(head, Survivors(a[1..], fa[1..], now, orderTimeout), Survivors(b, fb, now, orderTimeout));
    }
  }

  /** `g` is what a pass leaves of order `f`: the order itself, or the buy order turned into a sell order at `now`. */
  predicate LeftOf(f: ActiveFlip, filled: bool, g: ActiveFlip, now: int)
  {
    g == f || (f.status == Buying && filled && g == f.(status := Selling, timestamp := now))
  }

  /** `g` is young enough and is what a pass leaves of one of `flips`. */
  predicate LeftByPass(flips: seq<ActiveFlip>, fills: seq<bool>, g: ActiveFlip, now: int, orderTimeout: int)
    requires |fills| == |flips|
  {
    now - g.timestamp <= orderTimeout && exists j :: 0 <= j < |flips| && LeftOf(flips[j], fills[j], g, now)
  }

  /**
   * Every order left after a pass is young enough, and each is an order of
   * the pass, possibly turned from buying into selling.
   */
  lemma {:induction false} SurvivorsFresh(flips: seq<ActiveFlip>, fills: seq<bool>, now: int, orderTimeout: int)
    requires |fills| == |flips| && orderTimeout >= 0
    ensures forall g :: g in Survivors(flips, fills, now, orderTimeout) ==> LeftByPass(flips, fills, g, now, orderTimeout)
  {
    if flips != [] {
      SurvivorsFresh(flips[1..], fills[1..], now, orderTimeout);
      var head := KeptBy(Step(flips[0], now, orderTimeout, fills[0]));
      var tail := Survivors(flips[1..], fills[1..], now, orderTimeout);
      assert Survivors(flips, fills, now, orderTimeout) == head + tail;
      forall g | g in head + tail
        ensures LeftByPass(flips, fills, g, now, orderTimeout)
      {
        if g in head {
          assert LeftOf(flips[0], fills[0], g, now);
        } else {
          assert LeftByPass(flips[1..], fills[1..], g, now, orderTimeout);
          var j :| 0 <= j < |flips[1..]| && LeftOf(flips[1..][j], fills[1..][j], g, now);
          assert flips[1..][j] == flips[j + 1] && fills[1..][j] == fills[j + 1];
          assert LeftOf(flips[j + 1], fills[j + 1], g, now);
        }
      }
    }
  }

  /** No order both survives a pass and completes in it. */
  lemma {:induction false} PassLength(flips: seq<ActiveFlip>, fills: seq<bool>, now: int, orderTimeout: int)
    requires |fills| == |flips|
    ensures |Survivors(flips, fills, now, orderTimeout)| + |Completions(flips, fills, now, orderTimeout)| <= |flips|
  {
    if flips != [] {
      PassLength(flips[1..], fills[1..], now, orderTimeout);
    }
  }

  /** `c` is the completion of sell order `f`: reported filled, within the timeout, profit the sale less the cost. */
  predicate CompletionOf(f: ActiveFlip, filled: bool, c: Ledger.Completion, now: int, orderTimeout: int)
  {
    && f.status == Selling && filled && now - f.timestamp <= orderTimeout
    && c == Ledger.Completion(f.itemId, f.sellPrice * f.amount as real - f.totalCost, now)
  }

  /** Only sell orders reported filled and not yet expired complete, each with the sale less its cost as profit. */
  lemma {:induction false} CompletionsFromSelling(flips: seq<ActiveFlip>, fills: seq<bool>, now: int, orderTimeout: int)
    requires |fills| == |flips|
    ensures forall c :: c in Completions(flips, fills, now, orderTimeout) ==>
              exists j :: 0 <= j < |flips| && CompletionOf(flips[j], fills[j], c, now, orderTimeout)
  {
    if flips != [] {
      CompletionsFromSelling(flips[1..], fills[1..], now, orderTimeout);
      var done := Completions(flips[1..], fills[1..], now, orderTimeout);
      forall c | c in Completions(flips, fills, now, orderTimeout)
        ensures exists j :: 0 <= j < |flips| && CompletionOf(flips[j], fills[j], c, now, orderTimeout)
      {
        if c in done {
          var j :| 0 <= j < |flips[1..]| && CompletionOf(flips[1..][j], fills[1..][j], c, now, orderTimeout);
          assert flips[1..][j] == flips[j + 1] && fills[1..][j] == fills[j + 1];
        } else {
          assert CompletionOf(flips[0], fills[0], c, now, orderTimeout);
        }
      }
    }
  }

  /** Removing or replacing the element between `a` and `b`. */
  lemma Splice<T>(a: seq<T>, x: T, b: seq<T>, y: T)
    ensures var s := a + [x] + b; s[..|a|] + s[|a| + 1..] == a + b && s[|a| := y] == a + [y] + b
  {
    var s := a + [x] + b;
    assert s[..|a|] == a && s[|a| + 1..] == b;
  }

  /** Concatenation is associative. */
  lemma AppendAssoc<T>(a: seq<T>, b: seq<T>, c: seq<T>)
    ensures a + b + c == a + (b + c)
  {
  }

  /** One order of a pass, unfolded: the pass over `flips[i..]` is order `i`, then the pass over the rest. */
  lemma PassUnfold(flips: seq<ActiveFlip>, fills: seq<bool>, i: nat, now: int, orderTimeout: int)
    requires |fills| == |flips| && i < |flips|
    ensures Survivors(flips[i..], fills[i..], now, orderTimeout) ==
              KeptBy(Step(flips[i], now, orderTimeout, fills[i])) +
              Survivors(flips[i + 1..], fills[i + 1..], now, orderTimeout)
    ensures Completions(flips[i..], fills[i..], now, orderTimeout) ==
              Completions(flips[i + 1..], fills[i + 1..], now, orderTimeout) +
              CompletedBy(Step(flips[i], now, orderTimeout, fills[i]))
  {
    assert flips[i..][0] == flips[i] && flips[i..][1..] == flips[i + 1..];
    assert fills[i..][0] == fills[i] && fills[i..][1..] == fills[i + 1..];
  }

  /** With a timeout of 60,000 a buy order exactly 60,000 ms old is kept and one 60,001 ms old is dropped. */
  lemma TimeoutBoundary(f: ActiveFlip, now: int)
    requires f.status == Buying
    ensures Step(f.(timestamp := now - 60000), now, 60000, false) == Keep(f.(timestamp := now - 60000))
    ensures Step(f.(timestamp := now - 60001), now, 60000, false) == Drop
  {
  }

  /** A buy order reported filled is not completed in the same pass: it waits as a sell order. */
  lemma FilledBuyWaits(f: ActiveFlip, now: int, orderTimeout: int)
    requires f.status == Buying && now - f.timestamp <= orderTimeout
    ensures Step(f, now, orderTimeout, true) == Keep(f.(status := Selling, timestamp := now))
  {
  }

  /**
   * One step of the backward scan, on values: order `i` sits between the
   * untouched prefix and the survivors of the later orders, and what `Step`
   * keeps of it, and records, extends the pass over the later orders to the
   * pass over orders `i..`.
   */
  lemma ScanStep(flips: seq<ActiveFlip>, fills: seq<bool>, i: nat, now: int, orderTimeout: int, st0: Ledger.Statistics)
    requires |fills| == |flips| && i < |flips|
    ensures var rest := Survivors(flips[i + 1..], fills[i + 1..], now, orderTimeout);
            var pre := flips[..i + 1] + rest;
            && pre == flips[..i] + [flips[i]] + rest
            && |pre| > i && pre[..i] == flips[..i] && pre[i] == flips[i] && pre[i + 1..] == rest
    ensures var rest := Survivors(flips[i + 1..], fills[i + 1..], now, orderTimeout);
            flips[..i] + KeptBy(Step(flips[i], now, orderTimeout, fills[i])) + rest ==
              flips[..i] + Survivors(flips[i..], fills[i..], now, orderTimeout)
    ensures var o := Step(flips[i], now, orderTimeout, fills[i]);
            var done := Completions(flips[i + 1..], fills[i + 1..], now, orderTimeout);
            && (o.Complete? ==>
                  Completions(flips[i..], fills[i..], now, orderTimeout) == done + [o.completion] &&
                  Ledger.RecordAll(st0, done + [o.completion]) ==
                    Ledger.Recorded(Ledger.RecordAll(st0, done), o.completion.itemId, o.completion.profit, o.completion.at))
            && (!o.Complete? ==> Completions(flips[i..], fills[i..], now, orderTimeout) == done)
  {
    PassUnfold(flips, fills, i, now, orderTimeout);
    var rest := Survivors(flips[i + 1..], fills[i + 1..], now, orderTimeout);
    var done := Completions(flips[i + 1..], fills[i + 1..], now, orderTimeout);
    var o := Step(flips[i], now, orderTimeout, fills[i]);
    assert flips[..i + 1] == flips[..i] + [flips[i]];
    var pre := flips[..i] + [flips[i]] + rest;
    assert pre[..i] == flips[..i] && pre[i + 1..] == rest;
    AppendAssoc(flips[..i], KeptBy(o), rest);
    if o.Complete? {
      Ledger.RecordAllSnoc(st0, done, o.completion);
    } else {
      assert done + CompletedBy(o) == done;
    }
  }

  // ---------------------------------------------------------------------------
  // The engine
  // ---------------------------------------------------------------------------

  /**
   * What a run of `findAndExecuteFlips` leaves for its `.then` callback:
   * nothing when it did not run, the cached snapshot, or the answer to the
   * request made at `requestedAt`.
   */
  datatype Pending = Idle | Served(data: Market.Snapshot) | Awaiting(requestedAt: int)

  /** What `startFlipping` did. */
  datatype StartOutcome = AlreadyRunning | NotInBazaar | InsufficientCoins | Started

  /** The module-level state of index.js, with the ledger and the snapshot cache beside it. */
  class FlipEngine {
    var inBazaar: bool
    var running: bool
    var activeFlips: seq<ActiveFlip>
    var playerPurse: real
    const tracker: Ledger.ProfitTracker
    const cache: Market.SnapshotCache

    /** Neither running nor in the bazaar: the state the module starts in. */
    predicate Dormant()
      reads this
    {
      !running && !inBazaar
    }

    constructor(tracker: Ledger.ProfitTracker, cache: Market.SnapshotCache)
      ensures this.tracker == tracker && this.cache == cache
      ensures Dormant() && activeFlips == [] && playerPurse == 0.0
    {
      this.tracker := tracker;
      this.cache := cache;
      inBazaar, running := false, false;
      activeFlips, playerPurse := [], 0.0;
    }

    /** `updatePlayerPurse` over the cleaned scoreboard lines. */
    method UpdatePlayerPurse(lines: seq<string>) returns (purse: real)
      modifies this`playerPurse
      ensures playerPurse == PurseAfter(old(playerPurse), lines) && purse == playerPurse
    {
      var newPurse := Coins.GetPlayerPurse(lines);
      if newPurse > 0.0 {
        playerPurse := newPurse;
      }
      purse := playerPurse;
    }

    /** `initialize` of index.js: read the purse, then start the ledger. */
    method Initialize(lines: seq<string>, now: int)
      modifies this`playerPurse, tracker
      ensures playerPurse == PurseAfter(old(playerPurse), lines)
      ensures tracker.startTimestamp == now && tracker.lastResetTimestamp == now && tracker.file == old(tracker.file)
      ensures var st := old(tracker.Stats()).(startTimestamp := now, lastResetTimestamp := now);
              var restored := if old(tracker.file).Json? then Ledger.Restore(st, old(tracker.file).record) else st;
              tracker.Stats() == restored.(lastHourProfit := tracker.lastHourProfit)
      ensures var h := tracker.profitHistory;
              if h != [] && now - h[0].timestamp > 360000 then
                tracker.lastHourProfit * ((now - h[0].timestamp) as real) == Ledger.SumHistory(h) * 3600000.0
              else tracker.lastHourProfit == old(tracker.lastHourProfit)
    {
      var _ := UpdatePlayerPurse(lines);
      var _ := tracker.Initialize(now);
    }

    /** `hasSufficientBudget`: refresh the purse, then compare what is free with `cost`. */
    method HasSufficientBudget(cost: real, s: Settings, lines: seq<string>) returns (ok: bool)
      modifies this`playerPurse
      ensures playerPurse == PurseAfter(old(playerPurse), lines)
      ensures ok <==> CanAfford(playerPurse, s.minPurseSafety, activeFlips, cost)
    {
      var _ := UpdatePlayerPurse(lines);
      var reservedFunds := SumReserved(activeFlips);
      var availableBudget := playerPurse - s.minPurseSafety - reservedFunds;
      ok := availableBudget >= cost;
    }

    /** `executeFlip`: append a buy order for `flip`, stamped `now`. */
    method ExecuteFlip(flip: Market.Flip, now: int)
      modifies this`activeFlips
      ensures activeFlips == old(activeFlips) + [NewOrder(flip, now)]
    {
      var totalCost := flip.buyPrice * flip.amount as real;
      var order := ActiveFlip(flip.itemId, flip.buyPrice, flip.sellPrice, flip.amount,
                              flip.profit, flip.profitPercentage, Buying, now, totalCost);
      assert order == NewOrder(flip, now);
      activeFlips := activeFlips + [order];
    }

    /** The admission loop of `findAndExecuteFlips` over the ranked flips. */
    method AdmitFlips(bestFlips: seq<Market.Flip>, s: Settings, lines: seq<string>, now: int)
      modifies this`activeFlips, this`playerPurse
      ensures activeFlips == Admit(old(activeFlips), bestFlips, s, PurseAfter(old(playerPurse), lines), now)
      ensures playerPurse == PurseAfterAdmission(old(playerPurse), lines, |old(activeFlips)|, |bestFlips|, s)
    {
      ghost var purse := PurseAfter(playerPurse, lines);
      ghost var start := activeFlips;
      ghost var purse0 := playerPurse;
      for i := 0 to |bestFlips|
        invariant Admit(activeFlips, bestFlips[i..], s, purse, now) == Admit(start, bestFlips, s, purse, now)
        invariant |activeFlips| >= |start| && (i == 0 ==> activeFlips == start)
        invariant playerPurse == PurseAfterAdmission(purse0, lines, |start|, i, s)
      {
        assert bestFlips[i..][0] == bestFlips[i] && bestFlips[i..][1..] == bestFlips[i + 1..];
        var flip := bestFlips[i];
        PurseAfterIdempotent(purse0, lines);
        if |activeFlips| < s.maxConcurrentFlips {
          var totalCost := flip.buyPrice * flip.amount as real;
          var skip := false;
          if s.useBudgetCheck {
            var ok := HasSufficientBudget(totalCost, s, lines);
            skip := !ok;
          }
          if !skip {
            ExecuteFlip(flip, now);
          }
        }
      }
    }

    /**
     * The body of the backward scan for order `i`, with `filled` the fill
     * report for it: the order is replaced by what `Step` keeps of it, and a
     * completion is recorded and saved.
     */
    method CheckOrder(i: nat, now: int, orderTimeout: int, filled: bool)
      requires i < |activeFlips|
      modifies this`activeFlips, tracker
      ensures activeFlips == old(activeFlips[..i]) + KeptBy(Step(old(activeFlips[i]), now, orderTimeout, filled)) +
                             old(activeFlips[i + 1..])
      ensures Step(old(activeFlips[i]), now, orderTimeout, filled).Complete? ==>
                var c := Step(old(activeFlips[i]), now, orderTimeout, filled).completion;
                tracker.Stats() == Ledger.Recorded(old(tracker.Stats()), c.itemId, c.profit, c.at) &&
                tracker.file == Ledger.Json(Ledger.Saved(tracker.Stats(), now))
      ensures !Step(old(activeFlips[i]), now, orderTimeout, filled).Complete? ==> unchanged(tracker)
    {
      var flip := activeFlips[i];
      ghost var before := activeFlips;
      ghost var tracked := tracker.Stats();
      assert before == before[..i] + [flip] + before[i + 1..];
      if flip.status == Buying && now - flip.timestamp > orderTimeout {
        assert Step(flip, now, orderTimeout, filled) == Drop;
        activeFlips := activeFlips[..i] + activeFlips[i + 1..];
      } else if flip.status == Buying {
        if filled {
          var selling := flip.(status := Selling, timestamp := now);
          assert Step(flip, now, orderTimeout, filled) == Keep(selling);
          activeFlips := activeFlips[i := selling];
          assert activeFlips == before[..i] + [selling] + before[i + 1..];
        } else {
          assert Step(flip, now, orderTimeout, filled) == Keep(flip);
        }
      } else if now - flip.timestamp > orderTimeout {
        assert Step(flip, now, orderTimeout, filled) == Drop;
        activeFlips := activeFlips[..i] + activeFlips[i + 1..];
      } else if filled {
        var totalSale := flip.sellPrice * flip.amount as real;
        var actualProfit := totalSale - flip.totalCost;
        assert Step(flip, now, orderTimeout, filled) == Complete(Ledger.Completion(flip.itemId, actualProfit, now));
        tracker.RecordFlip(flip.itemId, actualProfit, now);
        assert tracker.Stats() == Ledger.Recorded(tracked, flip.itemId, actualProfit, now);
        activeFlips := activeFlips[..i] + activeFlips[i + 1..];
      } else {
        assert Step(flip, now, orderTimeout, filled) == Keep(flip);
      }
    }

    /**
     * What the backward scan has done once orders `i..` have been looked at:
     * those have been replaced by their survivors and their completions recorded.
     */
    ghost predicate Scanned(i: nat, flips0: seq<ActiveFlip>, fills: seq<bool>, st0: Ledger.Statistics,
                            file0: Ledger.StoredFile, now: int, orderTimeout: int)
      requires i <= |flips0| == |fills|
      reads this, tracker
    {
      && activeFlips == flips0[..i] + Survivors(flips0[i..], fills[i..], now, orderTimeout)
      && tracker.Stats() == Ledger.RecordAll(st0, Completions(flips0[i..], fills[i..], now, orderTimeout))
      && (Completions(flips0[i..], fills[i..], now, orderTimeout) == [] ==> tracker.file == file0)
      && (Completions(flips0[i..], fills[i..], now, orderTimeout) != [] ==>
            tracker.file == Ledger.Json(Ledger.Saved(tracker.Stats(), now)))
    }

    /** One step of the backward scan: order `i` is checked against its fill report. */
    method ScanOrder(i: nat, ghost flips0: seq<ActiveFlip>, fills: seq<bool>, ghost st0: Ledger.Statistics,
                     ghost file0: Ledger.StoredFile, now: int, orderTimeout: int)
      requires i < |flips0| == |fills|
      requires Scanned(i + 1, flips0, fills, st0, file0, now, orderTimeout)
      modifies this`activeFlips, tracker
      ensures Scanned(i, flips0, fills, st0, file0, now, orderTimeout)
    {
      ghost var rest := Survivors(flips0[i + 1..], fills[i + 1..], now, orderTimeout);
      ghost var done := Completions(flips0[i + 1..], fills[i + 1..], now, orderTimeout);
      ghost var outcome := Step(flips0[i], now, orderTimeout, fills[i]);
      ScanStep(flips0, fills, i, now, orderTimeout, st0);
      ghost var pre := activeFlips;
      assert pre[..i] == flips0[..i] && pre[i] == flips0[i] && pre[i + 1..] == rest;
      CheckOrder(i, now, orderTimeout, fills[i]);
    }

    /** `checkActiveFlips`: the backward scan over the open orders, `fills[k]` reporting on order `k`. */
    method CheckActiveFlips(now: int, orderTimeout: int, fills: seq<bool>)
      requires |fills| == |activeFlips|
      modifies this`activeFlips, tracker
      ensures activeFlips == Survivors(old(activeFlips), fills, now, orderTimeout)
      ensures tracker.Stats() == Ledger.RecordAll(old(tracker.Stats()), Completions(old(activeFlips), fills, now, orderTimeout))
      ensures Completions(old(activeFlips), fills, now, orderTimeout) == [] ==> tracker.file == old(tracker.file)
      ensures Completions(old(activeFlips), fills, now, orderTimeout) != [] ==>
                tracker.file == Ledger.Json(Ledger.Saved(tracker.Stats(), now))
    {
      ghost var flips0 := activeFlips;
      ghost var st0 := tracker.Stats();
      ghost var file0 := tracker.file;
      var i := |activeFlips|;
      assert flips0[..i] == flips0 && flips0[i..] == [] && fills[i..] == [];
      while i > 0
        invariant 0 <= i <= |flips0|
        invariant Scanned(i, flips0, fills, st0, file0, now, orderTimeout)
      {
        i := i - 1;
        ScanOrder(i, flips0, fills, st0, file0, now, orderTimeout);
      }
      assert flips0[..0] == [] && flips0[0..] == flips0 && fills[0..] == fills;
    }

    /**
     * The pass of `checkActiveFlips` at `now` over the orders `flips0` has
     * happened: the survivors are open, the completions are recorded in the
     * ledger, and the file is saved when one was.
     */
    ghost predicate Checked(flips0: seq<ActiveFlip>, fills: seq<bool>, st0: Ledger.Statistics,
                            file0: Ledger.StoredFile, now: int, orderTimeout: int)
      requires |fills| == |flips0|
      reads this, tracker
    {
      && activeFlips == Survivors(flips0, fills, now, orderTimeout)
      && tracker.Stats() == Ledger.RecordAll(st0, Completions(flips0, fills, now, orderTimeout))
      && (Completions(flips0, fills, now, orderTimeout) == [] ==> tracker.file == file0)
      && (Completions(flips0, fills, now, orderTimeout) != [] ==>
            tracker.file == Ledger.Json(Ledger.Saved(tracker.Stats(), now)))
    }

    /**
     * The synchronous part of one run of `findAndExecuteFlips`: nothing
     * unless running; otherwise the cache is consulted and the open orders
     * are checked. `pending` says what the snapshot's callback will get: the
     * cached snapshot, queued until the run returns, or the answer to a
     * request made at `now`, arriving later.
     */
    method FindAndExecuteFlips(s: Settings, now: int, fills: seq<bool>) returns (pending: Pending)
      requires |fills| == |activeFlips|
      modifies this`activeFlips, tracker
      ensures !old(running) ==> pending == Idle && unchanged(this) && unchanged(tracker)
      ensures old(running) ==> Checked(old(activeFlips), fills, old(tracker.Stats()), old(tracker.file), now, s.orderTimeout)
      ensures old(running) && cache.Fresh(now, s.scanInterval) ==> pending == Served(cache.cachedBazaarData.value)
      ensures old(running) && !cache.Fresh(now, s.scanInterval) ==> pending == Awaiting(now)
    {
      if !running {
        return Idle;
      }
      var hit := cache.CachedData(now, s.scanInterval);
      CheckActiveFlips(now, s.orderTimeout, fills);
      if hit.Some? {
        pending := Served(hit.value);
      } else {
        pending := Awaiting(now);
      }
    }

    /**
     * The `.then` callback of `findAndExecuteFlips` as written, at time
     * `now`, with the snapshot `data`: the ranked flips go through
     * admission. It does not look at `running`.
     */
    method OnBazaarData(data: Market.Snapshot, s: Settings, lines: seq<string>, now: int)
      modifies this`activeFlips, this`playerPurse
      ensures var best := Market.Take(Market.SortDesc(Market.Candidates(data, s)), s.maxItems);
              activeFlips == Admit(old(activeFlips), best, s, PurseAfter(old(playerPurse), lines), now) &&
              playerPurse == PurseAfterAdmission(old(playerPurse), lines, |old(activeFlips)|, |best|, s)
    {
      var bestFlips := Market.FindBestFlips(data, s, s.maxItems);
      AdmitFlips(bestFlips, s, lines, now);
    }

    /**
     * The answer to the request made at `requestedAt` arrives at `now`: the
     * cache takes a successful reply and the callback admits flips from it;
     * a failure is only reported.
     */
    method OnBazaarResponse(requestedAt: int, response: Market.FetchResponse, s: Settings, lines: seq<string>, now: int)
      returns (r: Result<Market.Snapshot, Market.FetchError>)
      modifies this`activeFlips, this`playerPurse, cache
      ensures response.Reply? && response.success ==>
                r == Ok(response.products) &&
                cache.cachedBazaarData == Some(response.products) && cache.lastFetchTimestamp == requestedAt &&
                var best := Market.Take(Market.SortDesc(Market.Candidates(response.products, s)), s.maxItems);
                activeFlips == Admit(old(activeFlips), best, s, PurseAfter(old(playerPurse), lines), now) &&
                playerPurse == PurseAfterAdmission(old(playerPurse), lines, |old(activeFlips)|, |best|, s)
      ensures !(response.Reply? && response.success) ==>
                r.Err? && unchanged(this) && unchanged(cache)
    {
      r := cache.StoreResponse(requestedAt, response);
      if r.Ok? {
        OnBazaarData(r.value, s, lines, now);
      }
    }

    /** The callback with the stop honoured: once flipping is stopped it admits nothing. */
    method OnBazaarDataWhileRunning(data: Market.Snapshot, s: Settings, lines: seq<string>, now: int)
      modifies this`activeFlips, this`playerPurse
      ensures !running ==> unchanged(this)
      ensures running ==>
                var best := Market.Take(Market.SortDesc(Market.Candidates(data, s)), s.maxItems);
                activeFlips == Admit(old(activeFlips), best, s, PurseAfter(old(playerPurse), lines), now) &&
                playerPurse == PurseAfterAdmission(old(playerPurse), lines, |old(activeFlips)|, |best|, s)
    {
      if running {
        OnBazaarData(data, s, lines, now);
      }
    }

    /** The answer to a request with the stop honoured: the cache still takes it, admission only while running. */
    method OnBazaarResponseWhileRunning(requestedAt: int, response: Market.FetchResponse, s: Settings,
                                        lines: seq<string>, now: int)
      returns (r: Result<Market.Snapshot, Market.FetchError>)
      modifies this`activeFlips, this`playerPurse, cache
      ensures response.Reply? && response.success ==>
                r == Ok(response.products) &&
                cache.cachedBazaarData == Some(response.products) && cache.lastFetchTimestamp == requestedAt
      ensures !(response.Reply? && response.success) ==> r.Err? && unchanged(cache)
      ensures !running || r.Err? ==> unchanged(this)
      ensures running && r.Ok? ==>
                var best := Market.Take(Market.SortDesc(Market.Candidates(r.value, s)), s.maxItems);
                activeFlips == Admit(old(activeFlips), best, s, PurseAfter(old(playerPurse), lines), now) &&
                playerPurse == PurseAfterAdmission(old(playerPurse), lines, |old(activeFlips)|, |best|, s)
    {
      r := cache.StoreResponse(requestedAt, response);
      if r.Ok? {
        OnBazaarDataWhileRunning(r.value, s, lines, now);
      }
    }

    /**
     * `startFlipping`: refused when already running, when not in the bazaar,
     * and, with the budget test on, when the refreshed purse does not exceed
     * the safety reserve; otherwise flipping starts with the synchronous part
     * of a first run.
     */
    method StartFlipping(s: Settings, lines: seq<string>, now: int, fills: seq<bool>)
      returns (outcome: StartOutcome, pending: Pending)
      requires |fills| == |activeFlips|
      modifies this`running, this`activeFlips, this`playerPurse, tracker
      ensures old(running) ==> outcome == AlreadyRunning && pending == Idle && unchanged(this) && unchanged(tracker)
      ensures !old(running) && !inBazaar ==> outcome == NotInBazaar && pending == Idle && unchanged(this) && unchanged(tracker)
      ensures !old(running) && inBazaar && s.useBudgetCheck && PurseAfter(old(playerPurse), lines) <= s.minPurseSafety ==>
                outcome == InsufficientCoins && pending == Idle && !running &&
                playerPurse == PurseAfter(old(playerPurse), lines) &&
                activeFlips == old(activeFlips) && unchanged(tracker)
      ensures !old(running) && inBazaar && !(s.useBudgetCheck && PurseAfter(old(playerPurse), lines) <= s.minPurseSafety) ==>
                outcome == Started && running && playerPurse == PurseAfter(old(playerPurse), lines) &&
                Checked(old(activeFlips), fills, old(tracker.Stats()), old(tracker.file), now, s.orderTimeout) &&
                (cache.Fresh(now, s.scanInterval) ==> pending == Served(cache.cachedBazaarData.value)) &&
                (!cache.Fresh(now, s.scanInterval) ==> pending == Awaiting(now))
      ensures inBazaar == old(inBazaar)
      ensures old(Dormant()) ==> Dormant()
    {
      if running {
        return AlreadyRunning, Idle;
      }
      if !inBazaar {
        return NotInBazaar, Idle;
      }
      var _ := UpdatePlayerPurse(lines);
      if s.useBudgetCheck && playerPurse <= s.minPurseSafety {
        return InsufficientCoins, Idle;
      }
      running := true;
      pending := FindAndExecuteFlips(s, now, fills);
      outcome := Started;
    }

    /**
     * The start command with the bazaar test made when it is given:
     * `inBazaar` takes the player's current status before the guards run.
     */
    method StartFlippingInBazaar(isInBazaar: bool, s: Settings, lines: seq<string>, now: int, fills: seq<bool>)
      returns (outcome: StartOutcome, pending: Pending)
      requires |fills| == |activeFlips|
      modifies this`inBazaar, this`running, this`activeFlips, this`playerPurse, tracker
      ensures inBazaar == isInBazaar
      ensures old(running) ==>
                outcome == AlreadyRunning && pending == Idle && running == old(running) &&
                activeFlips == old(activeFlips) && playerPurse == old(playerPurse) && unchanged(tracker)
      ensures !old(running) && !isInBazaar ==>
                outcome == NotInBazaar && pending == Idle && running == old(running) &&
                activeFlips == old(activeFlips) && playerPurse == old(playerPurse) && unchanged(tracker)
      ensures !old(running) && isInBazaar && !(s.useBudgetCheck && PurseAfter(old(playerPurse), lines) <= s.minPurseSafety) ==>
                outcome == Started && running && playerPurse == PurseAfter(old(playerPurse), lines) &&
                Checked(old(activeFlips), fills, old(tracker.Stats()), old(tracker.file), now, s.orderTimeout) &&
                (cache.Fresh(now, s.scanInterval) ==> pending == Served(cache.cachedBazaarData.value)) &&
                (!cache.Fresh(now, s.scanInterval) ==> pending == Awaiting(now))
      ensures !old(running) && isInBazaar && s.useBudgetCheck && PurseAfter(old(playerPurse), lines) <= s.minPurseSafety ==>
                outcome == InsufficientCoins && pending == Idle && !running &&
                playerPurse == PurseAfter(old(playerPurse), lines) &&
                activeFlips == old(activeFlips) && unchanged(tracker)
    {
      inBazaar := isInBazaar;
      outcome, pending := StartFlipping(s, lines, now, fills);
    }

    /** `stopFlipping`: only `running` changes. */
    method StopFlipping()
      modifies this`running
      ensures !running
      ensures old(Dormant()) ==> Dormant()
    {
      running := false;
    }

    /**
     * The bazaar poll of the overlay handler at time `now`, with `isInBazaar`
     * the player's status: while running, every 5 seconds, it records the
     * status, refreshes the purse, and stops flipping outside the bazaar.
     */
    method PollBazaarStatus(now: nat, isInBazaar: bool, lines: seq<string>)
      modifies this`inBazaar, this`running, this`playerPurse
      ensures !old(running) ==> unchanged(this)
      ensures old(running) && now % 5000 < 20 ==>
                inBazaar == isInBazaar && running == isInBazaar && playerPurse == PurseAfter(old(playerPurse), lines)
      ensures old(running) && now % 5000 >= 20 ==> unchanged(this)
      ensures old(Dormant()) ==> Dormant()
    {
      if running && now % 5000 < 20 {
        inBazaar := isInBazaar;
        var _ := UpdatePlayerPurse(lines);
        if !inBazaar && running {
          running := false;
        }
      }
    }
  }

  /**
   * Flipping as written can never start: a fresh engine is not in the
   * bazaar, and only the poll, which runs only while flipping, would record
   * that it is; so the start command is refused even for a player standing
   * in the bazaar. `lines` and `stored` are the scoreboard and the
   * statistics file at start-up.
   */
  method FreshEngineNeverStarts(s: Settings, lines: seq<string>, stored: Ledger.StoredFile, now: nat)
    returns (outcome: StartOutcome)
    ensures outcome == NotInBazaar
  {
    var tracker := new Ledger.ProfitTracker(stored);
    var cache := new Market.SnapshotCache();
    var engine := new FlipEngine(tracker, cache);
    engine.Initialize(lines, now);
    engine.PollBazaarStatus(now, true, lines);
    var pending;
    outcome, pending := engine.StartFlipping(s, lines, now, []);
  }

  /**
   * With the bazaar test made on the command, a fresh engine whose player is
   * in the bazaar with more coins than the reserve starts flipping, and its
   * first run, finding the cache empty, requests a snapshot.
   */
  method FreshEngineStartsInBazaar(s: Settings, lines: seq<string>, stored: Ledger.StoredFile, now: int)
    returns (outcome: StartOutcome, pending: Pending)
    requires Coins.ScoreboardPurse(lines) > s.minPurseSafety && Coins.ScoreboardPurse(lines) > 0.0
    ensures outcome == Started && pending == Awaiting(now)
  {
    var tracker := new Ledger.ProfitTracker(stored);
    var cache := new Market.SnapshotCache();
    var engine := new FlipEngine(tracker, cache);
    engine.Initialize(lines, now);
    outcome, pending := engine.StartFlippingInBazaar(true, s, lines, now, []);
  }

  /**
   * A stop given while the first run's request is out does not stop its
   * callback: the answer, arriving at `later`, still places buy orders,
   * because the callback never looks at `running`. Here the budget test is
   * off and `data` offers at least one acceptable flip.
   */
  method StopDuringRequestStillBuys(s: Settings, lines: seq<string>, stored: Ledger.StoredFile,
                                    now: int, later: int, data: Market.Snapshot)
    returns (stopped: bool, orders: nat)
    requires !s.useBudgetCheck && s.maxConcurrentFlips >= 1 && s.maxItems >= 1
    requires Market.Candidates(data, s) != []
    ensures stopped && orders >= 1
  {
    var engine, pending := StartedAwaiting(s, lines, stored, now);
    engine.StopFlipping();
    var _ := engine.OnBazaarResponse(pending.requestedAt, Market.Reply(true, data), s, lines, later);
    FirstFlipAdmitted(data, s, PurseAfter(engine.playerPurse, lines), later);
    stopped, orders := !engine.running, |engine.activeFlips|;
  }

  /** The same sequence with the stop honoured by the callback: no order is placed. */
  method StopDuringRequestBuysNothing(s: Settings, lines: seq<string>, stored: Ledger.StoredFile,
                                      now: int, later: int, data: Market.Snapshot)
    returns (stopped: bool, orders: nat)
    requires !s.useBudgetCheck && s.maxConcurrentFlips >= 1 && s.maxItems >= 1
    requires Market.Candidates(data, s) != []
    ensures stopped && orders == 0
  {
    var engine, pending := StartedAwaiting(s, lines, stored, now);
    engine.StopFlipping();
    var _ := engine.OnBazaarResponseWhileRunning(pending.requestedAt, Market.Reply(true, data), s, lines, later);
    stopped, orders := !engine.running, |engine.activeFlips|;
  }

  /** A fresh engine started in the bazaar with the budget test off: running, no orders, a request out. */
  method StartedAwaiting(s: Settings, lines: seq<string>, stored: Ledger.StoredFile, now: int)
    returns (engine: FlipEngine, pending: Pending)
    requires !s.useBudgetCheck
    ensures fresh(engine) && fresh(engine.cache)
    ensures engine.running && engine.activeFlips == [] && pending.Awaiting?
  {
    var tracker := new Ledger.ProfitTracker(stored);
    var cache := new Market.SnapshotCache();
    engine := new FlipEngine(tracker, cache);
    engine.Initialize(lines, now);
    var outcome;
    outcome, pending := engine.StartFlippingInBazaar(true, s, lines, now, []);
  }

  /** With room for one order and no budget test, the best flip of a snapshot that offers one is placed. */
  lemma FirstFlipAdmitted(data: Market.Snapshot, s: Settings, purse: real, now: int)
    requires !s.useBudgetCheck && s.maxConcurrentFlips >= 1 && s.maxItems >= 1
    requires Market.Candidates(data, s) != []
    ensures |Admit([], Market.Take(Market.SortDesc(Market.Candidates(data, s)), s.maxItems), s, purse, now)| >= 1
  {
    var cs := Market.Candidates(data, s);
    var sorted := Market.SortDesc(cs);
    assert |sorted| == |multiset(sorted)| == |multiset(cs)| == |cs|;
    var best := Market.Take(sorted, s.maxItems);
    assert best != [];
    AdmitPlacesFirst([], best, s, purse, now);
  }
}
