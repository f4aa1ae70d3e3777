/** The chart against the run it was drawn from: each of its points shows the prices of a row that
    was committed at some moment of the run, the one in force at the point's boundary. */
module ChartedRows {
  import opened Wrappers
  import opened RealMath
  import opened Amm
  import opened PricingEngine
  import opened Books
  import opened Exchange
  import opened Invariant
  import opened Preservation
  import opened Transactions
  import opened Evolution
  import opened Runs
  import opened Audit
  import opened Theorems
  import opened PriceHistory
  import opened FaithfulHistory
  import opened Scheduler

  // ---- Every number of trades was once committed ---------------------------------------------------------

  ghost predicate GrowsByOne(before: seq<Trade>, after: seq<Trade>) {
    before <= after && |after| <= |before| + 1
  }

  lemma TradeOpGrowsByOne(e: Engine, db: Db, user: UserId, key: string, request: TradeRequest, now: int, id: MarketId)
    requires SoundEngine(e) && Apply(e, db, TradeOp(user, key, request), now).Ok?
    ensures var next := Apply(e, db, TradeOp(user, key, request), now).value;
            id in next.markets ==> id in db.markets && GrowsByOne(db.markets[id].trades, next.markets[id].trades)
  {
    hide SoundEngine, CommitTrade, Recheck, SoundDeal, ParseMicros;
    var c, limit := request.claims, ParseMicros(request.limit).value;
    if (c.user, key) !in db.keys || db.keys[(c.user, key)].response.None? {
      RecheckedDeal(e, db.markets[c.market].row, c, limit, now);
      CommitIsCommitted(db, key, request, Recheck(e, db.markets[c.market].row, c, limit, now).value, now);
    }
  }

  lemma StepGrowsByOne(e: Engine, s: State, step: Step, id: MarketId)
    requires SoundEngine(e) && id in Next(e, s, step).db.markets
    ensures if id in s.db.markets then GrowsByOne(s.db.markets[id].trades, Next(e, s, step).db.markets[id].trades)
            else Next(e, s, step).db.markets[id].trades == []
  {
    hide SoundEngine, Apply;
    if Apply(e, s.db, step.op, step.now).Ok? {
      if step.op.TradeOp? {
        TradeOpGrowsByOne(e, s.db, step.op.user, step.op.key, step.op.request, step.now, id);
      } else {
        OthersKeepHistory(e, s.db, step.op, step.now);
      }
    }
  }

  /** The moment of a run at which a market had just its first `c` trades. */
  lemma {:induction false} MomentOfTrades(e: Engine, steps: seq<Step>, id: MarketId, c: nat) returns (k: nat)
    requires SoundEngine(e) && id in Run(e, Genesis(), steps).db.markets
    requires c <= |Run(e, Genesis(), steps).db.markets[id].trades|
    ensures k <= |steps| && id in Run(e, Genesis(), steps[..k]).db.markets
    ensures Run(e, Genesis(), steps[..k]).db.markets[id].trades == Run(e, Genesis(), steps).db.markets[id].trades[..c]
    decreases |steps|
  {
    hide SoundEngine, Next, Genesis;
    var all := Run(e, Genesis(), steps).db.markets[id].trades;
    if c == |all| {
      k := |steps|;
      assert steps[..k] == steps && all[..c] == all;
    } else {
      assert steps != [] by { GenesisHasNoMarkets(); }
      var n := |steps| - 1;
      StepGrowsByOne(e, Run(e, Genesis(), steps[..n]), steps[n], id);
      k := MomentOfTrades(e, steps[..n], id, c);
      assert steps[..n][..k] == steps[..k];
    }
  }

  lemma GenesisHasNoMarkets()
    ensures Genesis().db.markets == map[]
  {}

  // ---- Points and rows --------------------------------------------------------------------------------------

  /** After `k` steps of the run the market's row had the point's prices, all trades before the
      point's boundary had been made, and none since. */
  ghost predicate CommittedAt(m: Math, e: Engine, steps: seq<Step>, id: MarketId, p: Point, k: nat)
    requires Laws(m) && k <= |steps|
  {
    var mid, end := Run(e, Genesis(), steps[..k]).db.markets, Run(e, Genesis(), steps).db.markets;
    && id in mid && id in end
    && var n := |mid[id].trades|;
    && mid[id].trades <= end[id].trades
    && (forall j :: 0 <= j < n ==> mid[id].trades[j].at < p.start)
    && (forall j :: n <= j < |end[id].trades| ==> p.start <= end[id].trades[j].at)
    && Prices(m, mid[id].row.inventory, end[id].row.terms.liquidity) == Ok(p.prices)
  }

  ghost predicate WasCommitted(m: Math, e: Engine, steps: seq<Step>, id: MarketId, p: Point)
    requires Laws(m)
  {
    exists k :: 0 <= k <= |steps| && CommittedAt(m, e, steps, id, p, k)
  }

  lemma PointWasCommitted(m: Math, e: Engine, steps: seq<Step>, id: MarketId, rows: seq<Trade>, bucket: int, p: Point)
    requires Laws(m) && SoundEngine(e) && LegalRun(e, Genesis(), steps) && id in Run(e, Genesis(), steps).db.markets
    requires var mk := Run(e, Genesis(), steps).db.markets[id];
             multiset(rows) == multiset(mk.trades)
             && PointOk(m, mk.row.terms.liquidity, Outcomes(mk.row), rows, bucket, p)
    ensures WasCommitted(m, e, steps, id, p)
  {
    hide Laws, SoundEngine, LegalRun, Run, Genesis, Prices, Inv, Audited, InventoryAt, MarketEvolves, Reachable;
    var s := Run(e, Genesis(), steps);
    WholeRunReaches(e, steps);
    ReachableHistory(e, s, id);
    var c := CutAt(s.db.markets[id].trades, p.start);
    var k := MomentOfTrades(e, steps, id, c);
    MomentIsCommitted(m, e, steps, id, rows, p, k);
    assert CommittedAt(m, e, steps, id, p, k);
  }

  lemma MomentIsCommitted(
      m: Math, e: Engine, steps: seq<Step>, id: MarketId, rows: seq<Trade>, p: Point, k: nat
    )
    requires Laws(m) && SoundEngine(e) && LegalRun(e, Genesis(), steps) && k <= |steps|
    requires id in Run(e, Genesis(), steps).db.markets && id in Run(e, Genesis(), steps[..k]).db.markets
    requires var end, n := Run(e, Genesis(), steps).db.markets[id], |Run(e, Genesis(), steps[..k]).db.markets[id].trades|;
             && multiset(rows) == multiset(end.trades)
             && Prices(m, InventoryAt(rows, Outcomes(end.row), p.start), end.row.terms.liquidity) == Ok(p.prices)
             && (forall i :: 0 <= i < n ==> Run(e, Genesis(), steps[..k]).db.markets[id].trades[i].at < p.start)
             && (forall i :: n <= i < |end.trades| ==> p.start <= end.trades[i].at)
    ensures CommittedAt(m, e, steps, id, p, k)
  {
    hide Laws, SoundEngine, LegalRun, Run, Genesis, Prices, InventoryAt, Reachable;
    PrefixIsLegal(e, Genesis(), steps, k);
    WholeRunReaches(e, steps[..k]);
    SuffixIsLegal(e, Genesis(), steps, k);
    RunSplits(e, Genesis(), steps, k);
    MomentShows(m, e, Run(e, Genesis(), steps[..k]), steps[k..], id, rows, p);
  }

  /** At the moment after the trades before a boundary, the row has the inventory of the boundary. */
  lemma MomentShows(
      m: Math, e: Engine, mid: State, rest: seq<Step>, id: MarketId, rows: seq<Trade>, p: Point
    )
    requires Laws(m) && SoundEngine(e) && Reachable(e, mid) && LegalRun(e, mid, rest)
    requires id in mid.db.markets && id in Run(e, mid, rest).db.markets
    requires var end, n := Run(e, mid, rest).db.markets[id], |mid.db.markets[id].trades|;
             && multiset(rows) == multiset(end.trades)
             && Prices(m, InventoryAt(rows, Outcomes(end.row), p.start), end.row.terms.liquidity) == Ok(p.prices)
             && (forall i :: 0 <= i < n ==> mid.db.markets[id].trades[i].at < p.start)
             && (forall i :: n <= i < |end.trades| ==> p.start <= end.trades[i].at)
    ensures var end := Run(e, mid, rest).db.markets[id];
            && mid.db.markets[id].trades <= end.trades
            && Prices(m, mid.db.markets[id].row.inventory, end.row.terms.liquidity) == Ok(p.prices)
  {
    hide Laws, SoundEngine, LegalRun, Run, Prices, Inv, Audited, InventoryAt, MarketEvolves, Reachable;
    var end := Run(e, mid, rest);
    LifecycleOverRuns(e, mid, rest, id);
    ReachableOn(e, mid, rest);
    SameOutcomes(e, mid, end, id);
    BoundaryShowsRealInventory(e, mid, rest, id, rows, p.start);
  }

  lemma WholeRunReaches(e: Engine, steps: seq<Step>)
    requires LegalRun(e, Genesis(), steps)
    ensures Reachable(e, Run(e, Genesis(), steps))
  {}

  lemma SameOutcomes(e: Engine, a: State, b: State, id: MarketId)
    requires SoundEngine(e) && Reachable(e, a) && Reachable(e, b) && id in a.db.markets && id in b.db.markets
    requires MarketEvolves(a.db.markets[id], b.db.markets[id])
    ensures Outcomes(a.db.markets[id].row) == Outcomes(b.db.markets[id].row)
    ensures a.db.markets[id].trades <= b.db.markets[id].trades
  {
    hide SoundEngine, Reachable, Inv, Audited, MarketOk;
    ReachableIsSound(e, a);
    ReachableIsSound(e, b);
    MarketIsKept(e, a.db, a.clock, id);
    MarketIsKept(e, b.db, b.clock, id);
    OutcomesAreRuled(e, a.db.markets[id], a.db.books.balances[Reserve(id)], a.clock);
    OutcomesAreRuled(e, b.db.markets[id], b.db.books.balances[Reserve(id)], b.clock);
  }

  /** Each point of the chart drawn for a market of a run shows a row committed in that run: all of
      them when the market has at most 5000 trades, and all but the last when it has more. */
  lemma ChartShowsCommittedRows(
      m: Math, e: Engine, steps: seq<Step>, id: MarketId, rows: seq<Trade>, bucket: int, points: seq<Point>
    )
    requires Laws(m) && SoundEngine(e) && bucket > 0
    requires LegalRun(e, Genesis(), steps) && id in Run(e, Genesis(), steps).db.markets
    requires var mk := Run(e, Genesis(), steps).db.markets[id];
             multiset(rows) == multiset(mk.trades) && Sorted(rows)
             && Charts(m, mk.row.terms.liquidity, Outcomes(mk.row), Read(rows), bucket, points)
    ensures forall i :: 1 <= i < |points| && (i < |points| - 1 || |rows| <= LIMIT) ==>
      WasCommitted(m, e, steps, id, points[i])
  {
    hide Laws, SoundEngine, LegalRun, Run, PointOk, WasCommitted, Charts, Sorted, Genesis;
    var mk := Run(e, Genesis(), steps).db.markets[id];
    var liquidity, n := mk.row.terms.liquidity, Outcomes(mk.row);
    ChartsParts(m, liquidity, n, Read(rows), bucket, points);
    if |rows| > LIMIT {
      RowTotals(e, steps, id, rows);
      TruncatedHistory(m, liquidity, n, rows, LIMIT, bucket, points);
    }
    forall i | 1 <= i < |points| && (i < |points| - 1 || |rows| <= LIMIT)
      ensures WasCommitted(m, e, steps, id, points[i])
    {
      PointWasCommitted(m, e, steps, id, rows, bucket, points[i]);
    }
  }

  lemma RowTotals(e: Engine, steps: seq<Step>, id: MarketId, rows: seq<Trade>)
    requires SoundEngine(e) && LegalRun(e, Genesis(), steps) && id in Run(e, Genesis(), steps).db.markets
    requires multiset(rows) == multiset(Run(e, Genesis(), steps).db.markets[id].trades)
    ensures forall i :: 0 <= i < |rows| ==> 0 <= rows[i].total
  {
    hide SoundEngine, LegalRun, Run, Genesis, Inv, Audited, Reachable;
    var s := Run(e, Genesis(), steps);
    WholeRunReaches(e, steps);
    ReachableIsSound(e, s);
    MarketIsKept(e, s.db, s.clock, id);
    var trades := s.db.markets[id].trades;
    forall i | 0 <= i < |rows| ensures 0 <= rows[i].total {
      assert rows[i] in multiset(rows) && rows[i] in multiset(trades);
      var j :| 0 <= j < |trades| && trades[j] == rows[i];
    }
  }
}
