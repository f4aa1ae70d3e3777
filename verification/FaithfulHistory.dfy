/** The replayed history is the real one: it does not depend on how equal time stamps are ordered,
    its volumes add up, and its boundaries show inventories the market really had. */
module FaithfulHistory {
  import opened Wrappers
  import opened RealMath
  import opened Amm
  import opened PricingEngine
  import opened Books
  import opened Rules
  import opened Exchange
  import opened Invariant
  import opened Preservation
  import opened Settlement
  import opened Evolution
  import opened Transactions
  import opened Runs
  import opened Audit
  import opened Theorems
  import opened PriceHistory

  // ---- Ties --------------------------------------------------------------------------------------------

  ghost predicate Rising(xs: seq<int>) {
    forall i, j :: 0 <= i < j < |xs| ==> xs[i] < xs[j]
  }

  /** The last of a rising sequence is its greatest element; the rest are the others. */
  lemma RisingLast(a: seq<int>)
    requires Rising(a) && a != []
    ensures var m := |a| - 1;
            && a[m] in a && (forall x :: x in a ==> x <= a[m])
            && Rising(a[..m]) && forall x :: x in a[..m] <==> x in a && x != a[m]
  {
    var m := |a| - 1;
    assert a == a[..m] + [a[m]];
  }

  /** A rising sequence is determined by its elements. */
  lemma {:induction false} RisingIsDetermined(a: seq<int>, b: seq<int>)
    requires Rising(a) && Rising(b) && forall x :: x in a <==> x in b
    ensures a == b
    decreases |a|
  {
    hide Rising;
    if a != [] && b != [] {
      var m, n := |a| - 1, |b| - 1;
      RisingLast(a);
      RisingLast(b);
      assert a[m] == b[n];
      RisingIsDetermined(a[..m], b[..n]);
      assert a == a[..m] + [a[m]] && b == b[..n] + [b[n]];
    } else {
      BothEmpty(a, b);
    }
  }

  lemma BothEmpty(a: seq<int>, b: seq<int>)
    requires (a == [] || b == []) && forall x :: x in a <==> x in b
    ensures a == b == []
  {
    var first := if a != [] then a[0] else if b != [] then b[0] else 0;
    assert first in a <==> first in b;
  }

  function Starts(points: seq<Point>): seq<int> {
    if points == [] then [] else seq(|points| - 1, i requires 0 <= i < |points| - 1 => points[i + 1].start)
  }

  lemma ChartBuckets(m: Math, liquidity: int, n: nat, rows: seq<Trade>, bucket: int, points: seq<Point>)
    requires Laws(m) && bucket > 0 && Charts(m, liquidity, n, rows, bucket, points)
    ensures points != [] && ClosedBuckets(points, bucket) == Buckets(rows, bucket)
    ensures forall i, j :: 1 <= i < j < |points| ==> points[i].start < points[j].start
  {
    hide PointOk, OpeningOk, Buckets, ClosedBuckets, Laws;
  }

  lemma StartIsClosed(points: seq<Point>, bucket: int, x: int)
    requires points != []
    ensures x in Starts(points) <==> x - bucket in ClosedBuckets(points, bucket)
  {
    var starts := Starts(points);
    if x - bucket in ClosedBuckets(points, bucket) {
      var i :| 1 <= i < |points| && points[i].start - bucket == x - bucket;
      assert starts[i - 1] == x;
    }
    if x in starts {
      var i :| 0 <= i < |starts| && starts[i] == x;
      assert points[i + 1].start == x;
    }
  }

  lemma StartsAreBuckets(m: Math, liquidity: int, n: nat, rows: seq<Trade>, bucket: int, points: seq<Point>)
    requires Laws(m) && bucket > 0 && Charts(m, liquidity, n, rows, bucket, points)
    ensures |Starts(points)| == |points| - 1 && Rising(Starts(points))
    ensures forall x :: x in Starts(points) <==> x - bucket in Buckets(rows, bucket)
  {
    hide Charts, Buckets, ClosedBuckets, Laws;
    ChartBuckets(m, liquidity, n, rows, bucket, points);
    forall x ensures x in Starts(points) <==> x - bucket in Buckets(rows, bucket) {
      StartIsClosed(points, bucket, x);
    }
  }

  lemma BucketsPermute(a: seq<Trade>, b: seq<Trade>, bucket: int)
    requires bucket > 0 && multiset(a) == multiset(b)
    ensures Buckets(a, bucket) <= Buckets(b, bucket)
  {
    hide Floor;
    forall x | x in Buckets(a, bucket) ensures x in Buckets(b, bucket) {
      var i :| 0 <= i < |a| && x == Floor(a[i].at, bucket);
      assert a[i] in multiset(a) && a[i] in multiset(b);
      var j :| 0 <= j < |b| && b[j] == a[i];
      assert Floor(b[j].at, bucket) == x;
    }
  }

  lemma InventoryPermutes(a: seq<Trade>, b: seq<Trade>, n: nat, time: int)
    requires multiset(a) == multiset(b)
    ensures InventoryAt(a, n, time) == InventoryAt(b, n, time)
  {
    forall o | 0 <= o < n ensures InventoryAt(a, n, time)[o] == InventoryAt(b, n, time)[o] {
      TallyPermutes(a, b, MovesBefore(o, time));
    }
  }

  lemma FirstPermutes(a: seq<Trade>, b: seq<Trade>)
    requires multiset(a) == multiset(b) && Sorted(a) && Sorted(b) && a != []
    ensures b != [] && a[0].at == b[0].at
  {
    assert a[0] in multiset(a) && a[0] in multiset(b);
    assert b[0] in multiset(b) && b[0] in multiset(a);
    var j :| 0 <= j < |b| && b[j] == a[0];
    var i :| 0 <= i < |a| && a[i] == b[0];
  }

  /** Two orders of the same trades, both by time but breaking ties differently, have one chart. */
  lemma TieBreakIsIrrelevant(
      m: Math, liquidity: int, n: nat, a: seq<Trade>, b: seq<Trade>, bucket: int, p: seq<Point>, q: seq<Point>
    )
    requires Laws(m) && bucket > 0 && multiset(a) == multiset(b) && Sorted(a) && Sorted(b) && a != []
    requires Charts(m, liquidity, n, a, bucket, p) && Charts(m, liquidity, n, b, bucket, q)
    ensures p == q
  {
    hide Laws, Floor, Buckets, PointOk, ClosedBuckets, Prices;
    FirstPermutes(a, b);
    BucketsPermute(a, b, bucket);
    BucketsPermute(b, a, bucket);
    StartsAreBuckets(m, liquidity, n, a, bucket, p);
    StartsAreBuckets(m, liquidity, n, b, bucket, q);
    RisingIsDetermined(Starts(p), Starts(q));
    forall i | 1 <= i < |p| ensures p[i] == q[i] {
      assert Starts(p)[i - 1] == Starts(q)[i - 1];
      PointPermutes(m, liquidity, n, a, b, bucket, p[i], q[i]);
    }
    assert p[0] == q[0];
  }

  lemma PointPermutes(m: Math, liquidity: int, n: nat, a: seq<Trade>, b: seq<Trade>, bucket: int, p: Point, q: Point)
    requires Laws(m) && multiset(a) == multiset(b) && p.start == q.start
    requires PointOk(m, liquidity, n, a, bucket, p) && PointOk(m, liquidity, n, b, bucket, q)
    ensures p == q
  {
    hide Laws, Prices, InventoryAt;
    InventoryPermutes(a, b, n, p.start);
    TallyPermutes(a, b, Volumes(p.start - bucket, p.start));
  }

  // ---- Volumes -----------------------------------------------------------------------------------------

  function VolumeSum(points: seq<Point>): int {
    if points == [] then 0 else VolumeSum(points[..|points| - 1]) + points[|points| - 1].volume
  }

  function TotalsBefore(time: int): Trade -> int {
    (t: Trade) => if t.at < time then t.total else 0
  }

  lemma {:induction false} TallySplits(rows: seq<Trade>, f: Trade -> int, g: Trade -> int, h: Trade -> int)
    requires forall i :: 0 <= i < |rows| ==> f(rows[i]) == g(rows[i]) + h(rows[i])
    ensures Tally(rows, f) == Tally(rows, g) + Tally(rows, h)
  {
    if rows != [] {
      TallySplits(rows[..|rows| - 1], f, g, h);
    }
  }

  lemma {:induction false} TallySame(rows: seq<Trade>, f: Trade -> int, g: Trade -> int)
    requires forall i :: 0 <= i < |rows| ==> f(rows[i]) == g(rows[i])
    ensures Tally(rows, f) == Tally(rows, g)
  {
    if rows != [] {
      TallySame(rows[..|rows| - 1], f, g);
    }
  }

  lemma QuotientIs(t: int, bucket: int, q: int)
    requires bucket > 0 && q * bucket <= t < q * bucket + bucket
    ensures t / bucket == q
  {
    var d := t / bucket;
    assert t == d * bucket + t % bucket;
    if d < q {
      Multiplied(bucket, d + 1, q);
    } else if q < d {
      Multiplied(bucket, q + 1, d);
    }
  }

  lemma Multiplied(bucket: int, a: int, b: int)
    requires bucket > 0 && a <= b
    ensures a * bucket <= b * bucket
  {}

  lemma FloorIsMultiple(t: int, bucket: int)
    requires bucket > 0
    ensures Floor(t, bucket) == t / bucket * bucket
  {}

  lemma MultipleIsFloor(q: int, bucket: int)
    requires bucket > 0
    ensures Floor(q * bucket, bucket) == q * bucket
  {
    QuotientIs(q * bucket, bucket, q);
    FloorIsMultiple(q * bucket, bucket);
  }

  /** A row is before a point's boundary exactly when it is in that point's bucket or before the
      previous boundary. */
  lemma RowIsCounted(rows: seq<Trade>, bucket: int, starts: seq<int>, i: nat, r: nat)
    requires bucket > 0 && Rising(starts) && i < |starts| && r < |rows|
    requires forall x :: x in starts <==> x - bucket in Buckets(rows, bucket)
    ensures rows[r].at < starts[i] <==> (starts[i] - bucket <= rows[r].at < starts[i]) || (i > 0 && rows[r].at < starts[i - 1])
    ensures i > 0 ==> starts[i - 1] <= starts[i] - bucket
    ensures i == |starts| - 1 ==> rows[r].at < starts[i]
  {
    hide Floor;
    var own := Floor(rows[r].at, bucket) + bucket;
    assert own - bucket in Buckets(rows, bucket);
    assert own in starts && starts[i] in starts && (i > 0 ==> starts[i - 1] in starts);
    var j :| 0 <= j < |starts| && starts[j] == own;
    StartIsMultiple(rows, bucket, starts, i);
    if i > 0 {
      StartIsMultiple(rows, bucket, starts, i - 1);
      FloorsApart(starts[i - 1] - bucket, starts[i] - bucket, bucket);
    }
    if rows[r].at < starts[i] {
      FloorsApart(rows[r].at, starts[i], bucket);
      if rows[r].at < starts[i] - bucket {
        FloorsApart(rows[r].at, starts[i] - bucket, bucket);
        assert starts[j] <= starts[i] - bucket;
      }
    }
  }

  lemma StartIsMultiple(rows: seq<Trade>, bucket: int, starts: seq<int>, i: nat)
    requires bucket > 0 && i < |starts| && starts[i] - bucket in Buckets(rows, bucket)
    ensures Floor(starts[i] - bucket, bucket) == starts[i] - bucket
    ensures Floor(starts[i], bucket) == starts[i]
  {
    var r :| 0 <= r < |rows| && starts[i] - bucket == Floor(rows[r].at, bucket);
    hide Floor;
    FloorIsMultiple(rows[r].at, bucket);
    var q := rows[r].at / bucket;
    MultipleIsFloor(q, bucket);
    MultipleIsFloor(q + 1, bucket);
    assert (q + 1) * bucket == q * bucket + bucket;
  }

  /** What was traded before a boundary: its bucket, and all before the previous boundary. */
  lemma VolumeOfBucket(rows: seq<Trade>, bucket: int, starts: seq<int>, i: nat)
    requires bucket > 0 && Rising(starts) && i < |starts|
    requires forall x :: x in starts <==> x - bucket in Buckets(rows, bucket)
    ensures Tally(rows, TotalsBefore(starts[i]))
         == VolumeIn(rows, starts[i] - bucket, starts[i]) + if i == 0 then 0 else Tally(rows, TotalsBefore(starts[i - 1]))
  {
    hide Buckets, Rising;
    var now, bucketed := TotalsBefore(starts[i]), Volumes(starts[i] - bucket, starts[i]);
    if i == 0 {
      forall r | 0 <= r < |rows| ensures now(rows[r]) == bucketed(rows[r]) {
        RowIsCounted(rows, bucket, starts, i, r);
      }
      TallySame(rows, now, bucketed);
    } else {
      var before := TotalsBefore(starts[i - 1]);
      forall r | 0 <= r < |rows| ensures now(rows[r]) == bucketed(rows[r]) + before(rows[r]) {
        RowIsCounted(rows, bucket, starts, i, r);
      }
      TallySplits(rows, now, bucketed, before);
    }
  }

  lemma {:induction false} VolumesUpTo(
      m: Math, liquidity: int, n: nat, rows: seq<Trade>, bucket: int, points: seq<Point>, i: nat
    )
    requires Laws(m) && bucket > 0 && Charts(m, liquidity, n, rows, bucket, points) && i < |points|
    ensures VolumeSum(points[..i + 1]) == if i == 0 then 0 else Tally(rows, TotalsBefore(points[i].start))
    decreases i
  {
    hide Laws, Charts, Buckets, Rising, TotalsBefore, VolumeIn, Tally;
    assert points[..i + 1][..i] == points[..i];
    PointVolume(m, liquidity, n, rows, bucket, points, i);
    if i == 0 {
      assert points[..0] == [];
    } else {
      VolumesUpTo(m, liquidity, n, rows, bucket, points, i - 1);
      StartsAreBuckets(m, liquidity, n, rows, bucket, points);
      assert Starts(points)[i - 1] == points[i].start;
      assert i > 1 ==> Starts(points)[i - 2] == points[i - 1].start;
      VolumeOfBucket(rows, bucket, Starts(points), i - 1);
    }
  }

  lemma PointVolume(m: Math, liquidity: int, n: nat, rows: seq<Trade>, bucket: int, points: seq<Point>, i: nat)
    requires Laws(m) && bucket > 0 && Charts(m, liquidity, n, rows, bucket, points) && i < |points|
    ensures points[i].volume == if i == 0 then 0 else VolumeIn(rows, points[i].start - bucket, points[i].start)
  {
    hide Laws, Floor, Buckets, InventoryAt, Prices, ClosedBuckets, VolumeIn;
    assert i > 0 ==> PointOk(m, liquidity, n, rows, bucket, points[i]);
  }

  /** The bucket volumes add up to everything that was traded. */
  lemma VolumesAddUp(m: Math, liquidity: int, n: nat, rows: seq<Trade>, bucket: int, points: seq<Point>)
    requires Laws(m) && bucket > 0 && Charts(m, liquidity, n, rows, bucket, points)
    ensures VolumeSum(points) == Tally(rows, AllVolume())
  {
    hide Laws, Charts, Buckets, Rising, Tally, VolumeSum, TotalsBefore, AllVolume;
    var last := |points| - 1;
    StartsAreBuckets(m, liquidity, n, rows, bucket, points);
    VolumesUpTo(m, liquidity, n, rows, bucket, points, last);
    assert points[..last + 1] == points;
    AllCounted(rows, bucket, Starts(points));
    assert last > 0 ==> Starts(points)[last - 1] == points[last].start;
  }

  /** Everything was traded before the last boundary. */
  lemma AllCounted(rows: seq<Trade>, bucket: int, starts: seq<int>)
    requires bucket > 0 && Rising(starts)
    requires forall x :: x in starts <==> x - bucket in Buckets(rows, bucket)
    ensures starts == [] ==> Tally(rows, AllVolume()) == 0
    ensures starts != [] ==> Tally(rows, AllVolume()) == Tally(rows, TotalsBefore(starts[|starts| - 1]))
  {
    hide Buckets, Rising, Floor;
    if rows != [] {
      SomeBucket(rows, bucket);
      assert Floor(rows[0].at, bucket) + bucket in starts;
      var last := |starts| - 1;
      forall r | 0 <= r < |rows| ensures TotalsBefore(starts[last])(rows[r]) == AllVolume()(rows[r]) {
        RowIsCounted(rows, bucket, starts, last, r);
      }
      TallySame(rows, AllVolume(), TotalsBefore(starts[last]));
    }
  }

  lemma SomeBucket(rows: seq<Trade>, bucket: int)
    requires bucket > 0 && rows != []
    ensures Floor(rows[0].at, bucket) + bucket - bucket in Buckets(rows, bucket)
  {}

  // ---- The market's real inventories --------------------------------------------------------------------------

  function AfterTrades(trades: seq<Trade>, n: nat): (inventory: seq<int>)
    ensures |inventory| == n
    ensures forall o :: 0 <= o < n ==> inventory[o] == Tally(trades, MovesInAll(o))
  {
    seq(n, o requires 0 <= o < n => Tally(trades, MovesInAll(o)))
  }

  /** The inventory is what the trades made of it, and every earlier one could be priced. */
  ghost predicate HistoryOk(mk: Market) {
    var n := Outcomes(mk.row);
    && (forall i :: 0 <= i < |mk.trades| ==> mk.trades[i].outcome < n)
    && mk.row.inventory == AfterTrades(mk.trades, n)
    && forall k {:trigger mk.trades[..k]} :: 0 <= k <= |mk.trades| ==>
         Supported(AfterTrades(mk.trades[..k], n), mk.row.terms.liquidity)
  }

  ghost predicate HistoriesOk(db: Db) {
    forall i :: i in db.markets ==> HistoryOk(db.markets[i])
  }

  lemma AfterOneMore(trades: seq<Trade>, t: Trade, n: nat)
    requires t.outcome < n
    ensures AfterTrades(trades + [t], n) == Moved(AfterTrades(trades, n), t.outcome, t.side, t.quantity)
  {
    forall o | 0 <= o < n
      ensures AfterTrades(trades + [t], n)[o] == Moved(AfterTrades(trades, n), t.outcome, t.side, t.quantity)[o]
    {
      TallyAppend(trades, t, MovesInAll(o));
    }
  }

  lemma TradeKeepsHistory(mk: Market, c: QuoteClaims, deal: Deal, now: int)
    requires HistoryOk(mk) && c.outcome < Outcomes(mk.row)
    requires deal.inventory == Moved(mk.row.inventory, c.outcome, c.side, c.quantity)
    requires Supported(deal.inventory, mk.row.terms.liquidity)
    ensures HistoryOk(TradedMarket(mk, c, deal, now))
  {
    hide AfterTrades, Supported, Holding;
    var next, n := TradedMarket(mk, c, deal, now), Outcomes(mk.row);
    var t := next.trades[|mk.trades|];
    AfterOneMore(mk.trades, t, n);
    forall k | 0 <= k <= |next.trades| ensures Supported(AfterTrades(next.trades[..k], n), mk.row.terms.liquidity) {
      if k <= |mk.trades| {
        assert next.trades[..k] == mk.trades[..k];
      } else {
        assert next.trades[..k] == mk.trades + [t];
      }
    }
  }

  /** The same trades and inventory, under the same terms. */
  ghost predicate SameHistory(mk: Market, next: Market) {
    next.trades == mk.trades && next.row.inventory == mk.row.inventory && next.row.terms == mk.row.terms
  }

  lemma SettleKeepsHistory(db: Db, id: MarketId, batch: seq<UserId>, now: int)
    requires SettleTx(db, id, batch, now).Ok?
    ensures var next := SettleTx(db, id, batch, now).value;
            id in db.markets && id in next.markets && SameHistory(db.markets[id], next.markets[id])
            && next.markets == db.markets[id := next.markets[id]]
  {
    hide PayClaims, Drain, Unclaimed, FinalResult;
    var mk := Finalize(db.markets[id], now);
    if mk.row.phase == Resolving {
      ClaimsContinue(Settling(db.books, mk), id, batch, {});
    }
  }

  /** No transaction but a trade touches trades or inventory. */
  lemma OthersKeepHistory(e: Engine, db: Db, op: Op, now: int)
    requires !op.TradeOp? && Apply(e, db, op, now).Ok?
    ensures var next := Apply(e, db, op, now).value;
            && (forall i :: i in db.markets && i in next.markets ==> SameHistory(db.markets[i], next.markets[i]))
            && (forall i :: i in next.markets && i !in db.markets ==>
                  op.CreateOp? && next.markets[i] == NewMarket(op.terms) && e.funding(op.terms.liquidity, OutcomeCount(op.terms.rule)).Ok?)
  {
    hide NewMarket, Text.Bytes, Text.Trim, Text.Within, ExecuteTx, SettleTx, SuspendTx, ObserveTx, CreatorTx,
         ResolverTx, Post, SlotTaken, SpecValid, ValidRule, CategoryFits, ValidName, Purgeable, Due;
    if op.SettleOp? {
      SettleKeepsHistory(db, op.market, op.batch, now);
    } else if op.SuspendOp? || op.ObserveOp? || op.CreatorOp? || op.ResolverOp? {
      RowChangeKeepsHistory(e, db, op, now);
    }
  }

  lemma RowChangeKeepsHistory(e: Engine, db: Db, op: Op, now: int)
    requires op.SuspendOp? || op.ObserveOp? || op.CreatorOp? || op.ResolverOp?
    requires Apply(e, db, op, now).Ok?
    ensures var next := Apply(e, db, op, now).value;
            && op.market in db.markets && op.market in next.markets
            && next == WithMarket(db, op.market, next.markets[op.market])
            && SameHistory(db.markets[op.market], next.markets[op.market])
  {
    hide Evaluate, InputBounded, HasRevision, HasSource, FindEvent, Latest, GrantTx, CreateTx, ExecuteTx,
         CloseTx, SettleTx, PurgeTx;
  }

  lemma NewHistory(e: Engine, terms: Terms)
    requires SoundEngine(e) && e.funding(terms.liquidity, OutcomeCount(terms.rule)).Ok?
    ensures HistoryOk(NewMarket(terms))
  {
    var mk, n := NewMarket(terms), OutcomeCount(terms.rule);
    assert FundsOpening(e, terms.liquidity, n);
    assert AfterTrades([], n) == Zeros(n);
    assert Supported(Zeros(n), terms.liquidity);
    assert mk.trades[..0] == [];
  }

  lemma ApplyKeepsHistories(e: Engine, db: Db, clock: int, op: Op, now: int)
    requires SoundEngine(e) && HistoriesOk(db) && Apply(e, db, op, now).Ok?
    ensures HistoriesOk(Apply(e, db, op, now).value)
  {
    hide SoundEngine, HistoryOk, ExecuteOnce, Apply;
    var next := Apply(e, db, op, now).value;
    if op.TradeOp? {
      TradeOpKeepsHistories(e, db, op.user, op.key, op.request, now);
    } else {
      OthersKeepHistory(e, db, op, now);
      forall i | i in next.markets ensures HistoryOk(next.markets[i]) {
        if i in db.markets {
          SameIsOk(db.markets[i], next.markets[i]);
        } else {
          NewHistory(e, op.terms);
        }
      }
    }
  }

  lemma SameIsOk(mk: Market, next: Market)
    requires HistoryOk(mk) && SameHistory(mk, next)
    ensures HistoryOk(next)
  {}

  lemma TradeOpKeepsHistories(e: Engine, db: Db, user: UserId, key: string, request: TradeRequest, now: int)
    requires SoundEngine(e) && HistoriesOk(db) && Apply(e, db, TradeOp(user, key, request), now).Ok?
    ensures HistoriesOk(Apply(e, db, TradeOp(user, key, request), now).value)
  {
    hide SoundEngine, HistoryOk, CommitTrade, Recheck, Supported, SoundDeal, TradedMarket;
    var c, limit := request.claims, ParseMicros(request.limit).value;
    if (c.user, key) in db.keys && db.keys[(c.user, key)].response.Some? {
    } else {
      var mk := db.markets[c.market];
      RecheckedDeal(e, mk.row, c, limit, now);
      var deal := Recheck(e, mk.row, c, limit, now).value;
      CommitIsCommitted(db, key, request, deal, now);
      DealMoves(e, mk.row, c, deal);
      TradeKeepsHistory(mk, c, deal, now);
    }
  }

  lemma DealMoves(e: Engine, row: Instance, c: QuoteClaims, deal: Deal)
    requires SoundDeal(e, row, c.outcome, c.side, c.quantity, deal)
    ensures c.outcome < Outcomes(row) && deal.inventory == Moved(row.inventory, c.outcome, c.side, c.quantity)
    ensures Supported(deal.inventory, row.terms.liquidity)
  {}

  lemma {:induction false} RunKeepsHistories(e: Engine, s: State, steps: seq<Step>)
    requires SoundEngine(e) && HistoriesOk(s.db)
    ensures HistoriesOk(Run(e, s, steps).db)
  {
    hide SoundEngine, HistoriesOk, Apply;
    if steps != [] {
      var n := |steps| - 1;
      RunKeepsHistories(e, s, steps[..n]);
      var before := Run(e, s, steps[..n]);
      if Apply(e, before.db, steps[n].op, steps[n].now).Ok? {
        ApplyKeepsHistories(e, before.db, before.clock, steps[n].op, steps[n].now);
      }
    }
  }

  lemma ReachableHistory(e: Engine, s: State, id: MarketId)
    requires SoundEngine(e) && Reachable(e, s) && id in s.db.markets
    ensures HistoryOk(s.db.markets[id])
    ensures Sorted(s.db.markets[id].trades)
  {
    hide SoundEngine, HistoryOk, Run, LegalRun, Inv, Audited;
    var steps :| LegalRun(e, Genesis(), steps) && Run(e, Genesis(), steps) == s;
    RunKeepsHistories(e, Genesis(), steps);
    ReachableIsSound(e, s);
    TradesAreSorted(e, s, id);
  }

  lemma TradesAreSorted(e: Engine, s: State, id: MarketId)
    requires Inv(e, s.db, s.clock) && id in s.db.markets
    ensures Sorted(s.db.markets[id].trades)
  {
    MarketIsKept(e, s.db, s.clock, id);
  }

  /** The trades before a time are a prefix. */
  lemma {:induction false} CutAt(trades: seq<Trade>, time: int) returns (k: nat)
    requires Sorted(trades)
    ensures k <= |trades|
    ensures forall i :: 0 <= i < k ==> trades[i].at < time
    ensures forall i :: k <= i < |trades| ==> time <= trades[i].at
  {
    if trades == [] || time <= trades[0].at {
      k := 0;
    } else {
      var rest := CutAt(trades[1..], time);
      k := rest + 1;
      assert forall i :: 1 <= i < |trades| ==> trades[i] == trades[1..][i - 1];
    }
  }

  lemma InventoryOfPrefix(trades: seq<Trade>, n: nat, time: int, k: nat)
    requires k <= |trades|
    requires (forall i :: 0 <= i < k ==> trades[i].at < time) && (forall i :: k <= i < |trades| ==> time <= trades[i].at)
    ensures InventoryAt(trades, n, time) == AfterTrades(trades[..k], n)
  {
    forall o | 0 <= o < n ensures InventoryAt(trades, n, time)[o] == AfterTrades(trades[..k], n)[o] {
      TallyOnPrefix(trades, k, MovesBefore(o, time), MovesInAll(o));
    }
  }

  /** Replaying all trades of a reachable market, in whatever order ties are broken, the inventory at
      a time is the one its row really had between its last trade before that time and the next. */
  lemma BoundaryShowsRealInventory(e: Engine, s: State, steps: seq<Step>, id: MarketId, rows: seq<Trade>, time: int)
    requires SoundEngine(e) && Reachable(e, s) && LegalRun(e, s, steps)
    requires id in s.db.markets && id in Run(e, s, steps).db.markets
    requires multiset(rows) == multiset(Run(e, s, steps).db.markets[id].trades)
    requires var before := s.db.markets[id].trades;
             var all := Run(e, s, steps).db.markets[id].trades;
             && (forall i :: 0 <= i < |before| ==> before[i].at < time)
             && (forall i :: |before| <= i < |all| ==> time <= all[i].at)
    ensures InventoryAt(rows, Outcomes(s.db.markets[id].row), time) == s.db.markets[id].row.inventory
  {
    hide SoundEngine, LegalRun, Run, Inv, Audited, Reachable, InventoryAt, AfterTrades;
    var mk, end := s.db.markets[id], Run(e, s, steps).db.markets[id];
    ReachableHistory(e, s, id);
    LifecycleOverRuns(e, s, steps, id);
    assert mk.trades <= end.trades;
    assert end.trades[..|mk.trades|] == mk.trades;
    InventoryPermutes(rows, end.trades, Outcomes(mk.row), time);
    InventoryOfPrefix(end.trades, Outcomes(mk.row), time, |mk.trades|);
  }

  /** Every boundary of a reachable market's history can be priced: the replay never fails. */
  lemma HistoryNeverFails(m: Math, e: Engine, s: State, id: MarketId, rows: seq<Trade>, bucket: int)
    requires Laws(m) && bucket > 0 && SoundEngine(e) && Reachable(e, s) && id in s.db.markets
    requires multiset(rows) == multiset(s.db.markets[id].trades)
    ensures !Unpriceable(m, s.db.markets[id].row.terms.liquidity, Outcomes(s.db.markets[id].row), rows, bucket)
  {
    hide Reachable, Laws, Prices, SoundEngine, Floor;
    var mk, n := s.db.markets[id], Outcomes(s.db.markets[id].row);
    ReachableHistory(e, s, id);
    forall time ensures Prices(m, InventoryAt(rows, n, time), mk.row.terms.liquidity).Ok? {
      BoundaryIsPriced(m, mk, rows, time);
    }
    OpeningIsPriced(m, mk);
  }

  lemma BoundaryIsPriced(m: Math, mk: Market, rows: seq<Trade>, time: int)
    requires Laws(m) && HistoryOk(mk) && Sorted(mk.trades) && multiset(rows) == multiset(mk.trades)
    ensures Prices(m, InventoryAt(rows, Outcomes(mk.row), time), mk.row.terms.liquidity).Ok?
  {
    hide Laws, InventoryAt, AfterTrades;
    var k := CutAt(mk.trades, time);
    InventoryPermutes(rows, mk.trades, Outcomes(mk.row), time);
    InventoryOfPrefix(mk.trades, Outcomes(mk.row), time, k);
  }

  lemma OpeningIsPriced(m: Math, mk: Market)
    requires Laws(m) && HistoryOk(mk)
    ensures Prices(m, Zeros(Outcomes(mk.row)), mk.row.terms.liquidity).Ok?
  {
    hide Laws;
    assert mk.trades[..0] == [];
    assert AfterTrades([], Outcomes(mk.row)) == Zeros(Outcomes(mk.row));
  }

  // ---- Beyond the limit ------------------------------------------------------------------------------------------

  /** The omitted trades fall into the last replayed bucket, moved no money, and together moved every
      outcome by the same quantity. */
  ghost predicate OmissionShowsNothing(all: seq<Trade>, n: nat, k: nat, bucket: int)
    requires bucket > 0 && 0 < k <= |all|
  {
    && (forall j :: k <= j < |all| ==> Floor(all[j].at, bucket) == Floor(all[k - 1].at, bucket))
    && (forall j :: k <= j < |all| ==> all[j].total == 0)
    && (forall o: nat, u: nat :: o < n && u < n ==> Tally(all[k..], MovesInAll(o)) == Tally(all[k..], MovesInAll(u)))
  }

  /** When only the first rows are replayed, every point but the last still shows the whole history.
      The chart as a whole does exactly when the omitted trades show nothing, and the inventory they
      lead to can be priced. */
  lemma TruncatedHistory(m: Math, liquidity: int, n: nat, all: seq<Trade>, k: nat, bucket: int, points: seq<Point>)
    requires Laws(m) && bucket > 0 && Sorted(all) && 0 < k < |all|
    requires forall i :: 0 <= i < |all| ==> 0 <= all[i].total
    requires Charts(m, liquidity, n, all[..k], bucket, points)
    ensures forall i :: 1 <= i < |points| - 1 ==> PointOk(m, liquidity, n, all, bucket, points[i])
    ensures Charts(m, liquidity, n, all, bucket, points)
       <==> OmissionShowsNothing(all, n, k, bucket) && Supported(AfterTrades(all, n), liquidity)
  {
    hide Laws, Floor, Buckets, PointOk, OpeningOk, ClosedBuckets, Prices, Rising, Sorted, Charts,
         OmissionShowsNothing, Supported;
    var last := |points| - 1;
    Boundaries(m, liquidity, n, all, k, bucket, points);
    ChartsParts(m, liquidity, n, all[..k], bucket, points);
    forall i | 1 <= i < last ensures PointOk(m, liquidity, n, all, bucket, points[i]) {
      EarlierPoint(m, liquidity, n, all, k, bucket, points[i]);
    }
    ChartOfMore(m, liquidity, n, all, k, bucket, points);
    if Buckets(all, bucket) == Buckets(all[..k], bucket) {
      SameBuckets(all, k, bucket);
      LastPointIff(m, liquidity, n, all, k, bucket, points[last]);
    } else {
      MoreBuckets(all, n, k, bucket);
    }
  }

  lemma ChartsParts(m: Math, liquidity: int, n: nat, rows: seq<Trade>, bucket: int, points: seq<Point>)
    requires Laws(m) && bucket > 0 && Charts(m, liquidity, n, rows, bucket, points)
    ensures forall i :: 1 <= i < |points| ==> PointOk(m, liquidity, n, rows, bucket, points[i])
  {
    hide Laws, PointOk, OpeningOk, ClosedBuckets, Buckets;
  }

  /** A chart of the first rows is one of all rows if no bucket and no point differs. */
  lemma ChartOfMore(m: Math, liquidity: int, n: nat, all: seq<Trade>, k: nat, bucket: int, points: seq<Point>)
    requires Laws(m) && bucket > 0 && 0 < k < |all|
    requires Charts(m, liquidity, n, all[..k], bucket, points)
    ensures Charts(m, liquidity, n, all, bucket, points) <==>
      && Buckets(all, bucket) == Buckets(all[..k], bucket)
      && forall i :: 1 <= i < |points| ==> PointOk(m, liquidity, n, all, bucket, points[i])
  {
    hide Laws, PointOk, OpeningOk, ClosedBuckets, Buckets, Floor;
  }

  lemma SameBuckets(all: seq<Trade>, k: nat, bucket: int)
    requires bucket > 0 && Sorted(all) && 0 < k < |all| && Buckets(all, bucket) == Buckets(all[..k], bucket)
    ensures forall j :: k <= j < |all| ==> Floor(all[j].at, bucket) == Floor(all[k - 1].at, bucket)
  {
    hide Floor;
    forall j | k <= j < |all| ensures Floor(all[j].at, bucket) == Floor(all[k - 1].at, bucket) {
      assert Floor(all[j].at, bucket) in Buckets(all[..k], bucket);
      var i :| 0 <= i < k && Floor(all[j].at, bucket) == Floor(all[..k][i].at, bucket);
      FloorsApart(all[i].at, all[k - 1].at, bucket);
      FloorsApart(all[k - 1].at, all[j].at, bucket);
    }
  }

  lemma MoreBuckets(all: seq<Trade>, n: nat, k: nat, bucket: int)
    requires bucket > 0 && 0 < k < |all| && Buckets(all, bucket) != Buckets(all[..k], bucket)
    ensures !OmissionShowsNothing(all, n, k, bucket)
  {
    hide Floor;
    forall x | x in Buckets(all[..k], bucket) ensures x in Buckets(all, bucket) {
      var i :| 0 <= i < k && x == Floor(all[..k][i].at, bucket);
      assert all[i] == all[..k][i];
    }
    if x :| x in Buckets(all, bucket) && x !in Buckets(all[..k], bucket) {
      var j :| 0 <= j < |all| && x == Floor(all[j].at, bucket);
      assert all[..k][if j < k then j else k - 1] == all[if j < k then j else k - 1];
    }
  }

  /** The last point, when every omitted trade is in its bucket. */
  lemma LastPointIff(m: Math, liquidity: int, n: nat, all: seq<Trade>, k: nat, bucket: int, p: Point)
    requires Laws(m) && bucket > 0 && Sorted(all) && 0 < k < |all|
    requires forall i :: 0 <= i < |all| ==> 0 <= all[i].total
    requires PointOk(m, liquidity, n, all[..k], bucket, p) && p.start - bucket == Floor(all[k - 1].at, bucket)
    requires forall j :: k <= j < |all| ==> Floor(all[j].at, bucket) == Floor(all[k - 1].at, bucket)
    ensures PointOk(m, liquidity, n, all, bucket, p)
       <==> OmissionShowsNothing(all, n, k, bucket) && Supported(AfterTrades(all, n), liquidity)
  {
    hide Laws, Floor, Supported, InventoryAt, AfterTrades, Prices, SameDifferences;
    LastVolume(m, liquidity, n, all, k, bucket, p);
    forall j | 0 <= j < |all| ensures all[j].at < p.start {
      assert j < k ==> all[j].at <= all[k - 1].at;
    }
    InventoryOfPrefix(all, n, p.start, |all|);
    InventoryOfPrefix(all[..k], n, p.start, k);
    assert all[..|all|] == all && all[..k][..k] == all[..k];
    PricesIff(m, AfterTrades(all[..k], n), AfterTrades(all, n), liquidity, p.prices);
    OmittedDifferences(all, n, k);
  }

  /** Prices of one inventory are those of another exactly when it can be priced and has the same
      differences. */
  lemma PricesIff(m: Math, before: seq<int>, after: seq<int>, liquidity: int, prices: seq<real>)
    requires Laws(m) && |before| == |after| && Prices(m, before, liquidity) == Ok(prices)
    ensures Prices(m, after, liquidity) == Ok(prices) <==> Supported(after, liquidity) && SameDifferences(before, after)
  {
    hide Laws, Supported, Probabilities, SameDifferences;
    if Supported(after, liquidity) {
      SupportedShape(after, liquidity);
      SamePricesIff(m, before, after, liquidity);
    }
  }

  lemma SupportedShape(inventory: seq<int>, liquidity: int)
    requires Supported(inventory, liquidity)
    ensures |inventory| > 0 && liquidity > 0
  {}

  lemma {:induction false} TallyInTwo(a: seq<Trade>, b: seq<Trade>, f: Trade -> int)
    ensures Tally(a + b, f) == Tally(a, f) + Tally(b, f)
  {
    if b == [] {
      assert a + b == a;
    } else {
      TallyInTwo(a, b[..|b| - 1], f);
      assert a + b == (a + b[..|b| - 1]) + [b[|b| - 1]];
      TallyAppend(a + b[..|b| - 1], b[|b| - 1], f);
    }
  }

  lemma OmittedDifferences(all: seq<Trade>, n: nat, k: nat)
    requires k <= |all|
    ensures SameDifferences(AfterTrades(all[..k], n), AfterTrades(all, n)) <==>
      forall o: nat, u: nat :: o < n && u < n ==> Tally(all[k..], MovesInAll(o)) == Tally(all[k..], MovesInAll(u))
  {
    hide Tally;
    var before, after := AfterTrades(all[..k], n), AfterTrades(all, n);
    forall o: nat | o < n ensures after[o] == before[o] + Tally(all[k..], MovesInAll(o)) {
      TallyInTwo(all[..k], all[k..], MovesInAll(o));
      assert all[..k] + all[k..] == all;
    }
    if SameDifferences(before, after) {
      forall o: nat, u: nat | o < n && u < n ensures Tally(all[k..], MovesInAll(o)) == Tally(all[k..], MovesInAll(u)) {
        assert before[o] - before[u] == after[o] - after[u];
      }
    }
  }

  /** The last boundary ends the bucket of the last replayed row; the others are no later than its
      start. */
  lemma Boundaries(m: Math, liquidity: int, n: nat, all: seq<Trade>, k: nat, bucket: int, points: seq<Point>)
    requires Laws(m) && bucket > 0 && Sorted(all) && 0 < k < |all|
    requires Charts(m, liquidity, n, all[..k], bucket, points)
    ensures |points| >= 2 && points[|points| - 1].start - bucket == Floor(all[k - 1].at, bucket)
    ensures forall i :: 1 <= i < |points| - 1 ==> points[i].start <= Floor(all[k - 1].at, bucket)
  {
    hide Laws, Floor, Buckets, Charts, Rising, Sorted;
    var rows, last, starts := all[..k], |points| - 1, Starts(points);
    StartsAreBuckets(m, liquidity, n, rows, bucket, points);
    SomeBucket(rows, bucket);
    assert Floor(rows[0].at, bucket) + bucket in starts;
    assert rows[|rows| - 1] == all[k - 1];
    PrefixIsSorted(all, k);
    LastBucket(rows, bucket, starts);
    assert starts[last - 1] == points[last].start;
    forall i | 1 <= i < last ensures points[i].start <= Floor(all[k - 1].at, bucket) {
      assert starts[i - 1] == points[i].start;
      EarlierBoundary(rows, bucket, starts, i - 1);
    }
  }

  lemma PrefixIsSorted(all: seq<Trade>, k: nat)
    requires Sorted(all) && k <= |all|
    ensures Sorted(all[..k])
  {}

  /** The last boundary ends the bucket of the last row. */
  lemma LastBucket(rows: seq<Trade>, bucket: int, starts: seq<int>)
    requires bucket > 0 && rows != [] && starts != [] && Sorted(rows) && Rising(starts)
    requires forall x :: x in starts <==> x - bucket in Buckets(rows, bucket)
    ensures starts[|starts| - 1] == Floor(rows[|rows| - 1].at, bucket) + bucket
  {
    hide Floor;
    var last, r := |starts| - 1, |rows| - 1;
    var own := Floor(rows[r].at, bucket) + bucket;
    assert own - bucket in Buckets(rows, bucket) && own in starts;
    var j :| 0 <= j < |starts| && starts[j] == own;
    assert starts[last] in starts;
    var i :| 0 <= i < |rows| && starts[last] - bucket == Floor(rows[i].at, bucket);
    FloorsApart(rows[i].at, rows[r].at, bucket);
  }

  lemma EarlierBoundary(rows: seq<Trade>, bucket: int, starts: seq<int>, i: nat)
    requires bucket > 0 && rows != [] && Rising(starts) && i + 1 < |starts|
    requires forall x :: x in starts <==> x - bucket in Buckets(rows, bucket)
    ensures starts[i] <= starts[|starts| - 1] - bucket
  {
    hide Floor, Buckets;
    RowIsCounted(rows, bucket, starts, i + 1, 0);
  }

  lemma EarlierPoint(m: Math, liquidity: int, n: nat, all: seq<Trade>, k: nat, bucket: int, p: Point)
    requires Laws(m) && bucket > 0 && Sorted(all) && 0 < k < |all|
    requires PointOk(m, liquidity, n, all[..k], bucket, p) && p.start <= Floor(all[k - 1].at, bucket)
    ensures PointOk(m, liquidity, n, all, bucket, p)
  {
    hide Laws, Prices, Floor;
    forall j | k <= j < |all| ensures p.start <= all[j].at {
      assert Floor(all[k - 1].at, bucket) <= all[k - 1].at <= all[j].at;
    }
    forall o | 0 <= o < n ensures InventoryAt(all, n, p.start)[o] == InventoryAt(all[..k], n, p.start)[o] {
      TallyOnPrefix(all, k, MovesBefore(o, p.start), MovesBefore(o, p.start));
    }
    assert InventoryAt(all, n, p.start) == InventoryAt(all[..k], n, p.start);
    TallyOnPrefix(all, k, Volumes(p.start - bucket, p.start), Volumes(p.start - bucket, p.start));
  }

  lemma LastVolume(m: Math, liquidity: int, n: nat, all: seq<Trade>, k: nat, bucket: int, p: Point)
    requires Laws(m) && bucket > 0 && Sorted(all) && 0 < k < |all|
    requires forall i :: 0 <= i < |all| ==> 0 <= all[i].total
    requires PointOk(m, liquidity, n, all[..k], bucket, p) && p.start - bucket == Floor(all[k - 1].at, bucket)
    ensures p.volume == VolumeIn(all, p.start - bucket, p.start)
       <==> forall j :: k <= j < |all| && all[j].at < p.start ==> all[j].total == 0
  {
    hide Laws, Prices, Floor, InventoryAt;
    var f := Volumes(p.start - bucket, p.start);
    forall j | k <= j < |all| ensures p.start - bucket <= all[j].at && 0 <= f(all[j]) {
      assert Floor(all[k - 1].at, bucket) <= all[k - 1].at <= all[j].at;
    }
    TallyGrows(all, k, f);
    if forall j :: k <= j < |all| ==> f(all[j]) == 0 {
      assert forall j :: k <= j < |all| && all[j].at < p.start ==> f(all[j]) == all[j].total;
    } else {
      var j :| k <= j < |all| && f(all[j]) != 0;
      assert all[j].at < p.start && all[j].total != 0;
    }
  }

  /** Terms that are never negative add nothing exactly when they are all zero. */
  lemma {:induction false} TallyGrows(all: seq<Trade>, k: nat, f: Trade -> int)
    requires k <= |all| && forall j :: k <= j < |all| ==> 0 <= f(all[j])
    ensures Tally(all[..k], f) <= Tally(all, f)
    ensures Tally(all[..k], f) == Tally(all, f) <==> forall j :: k <= j < |all| ==> f(all[j]) == 0
    decreases |all|
  {
    if k < |all| {
      var n := |all| - 1;
      TallyGrows(all[..n], k, f);
      assert all[..n][..k] == all[..k];
    } else {
      assert all[..k] == all;
    }
  }
}
