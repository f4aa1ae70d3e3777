/** The price and volume history of a market, replayed from its trades. */
module PriceHistory {
  import opened Wrappers
  import opened RealMath
  import opened Amm
  import opened Exchange

  const LIMIT := 5000

  datatype Point = Point(start: int, prices: seq<real>, volume: int)

  // ---- Sums over trades -----------------------------------------------------------------------------

  function Tally(trades: seq<Trade>, f: Trade -> int): int {
    if trades == [] then 0 else Tally(trades[..|trades| - 1], f) + f(trades[|trades| - 1])
  }

  function Effect(t: Trade, o: nat): int {
    if t.outcome == o then Delta(t.side, t.quantity) else 0
  }

  /** What trades before `time` did to outcome `o`. */
  function MovesBefore(o: nat, time: int): Trade -> int {
    (t: Trade) => if t.at < time then Effect(t, o) else 0
  }

  function MovesInAll(o: nat): Trade -> int {
    (t: Trade) => Effect(t, o)
  }

  function Volumes(low: int, high: int): Trade -> int {
    (t: Trade) => if low <= t.at < high then t.total else 0
  }

  function AllVolume(): Trade -> int {
    (t: Trade) => t.total
  }

  /** The inventory as it was at `time`: every trade before it, none after. */
  function InventoryAt(trades: seq<Trade>, n: nat, time: int): (inventory: seq<int>)
    ensures |inventory| == n
    ensures forall o :: 0 <= o < n ==> inventory[o] == Tally(trades, MovesBefore(o, time))
  {
    seq(n, o requires 0 <= o < n => Tally(trades, MovesBefore(o, time)))
  }

  function VolumeIn(trades: seq<Trade>, low: int, high: int): int {
    Tally(trades, Volumes(low, high))
  }

  lemma TallyAppend(trades: seq<Trade>, t: Trade, f: Trade -> int)
    ensures Tally(trades + [t], f) == Tally(trades, f) + f(t)
  {
    assert (trades + [t])[..|trades|] == trades;
  }

  /** Two sums agree when the second term by term does what the first does on a prefix, and the first
      ignores the rest. */
  lemma {:induction false} TallyOnPrefix(trades: seq<Trade>, k: nat, f: Trade -> int, g: Trade -> int)
    requires k <= |trades|
    requires forall j :: 0 <= j < k ==> f(trades[j]) == g(trades[j])
    requires forall j :: k <= j < |trades| ==> f(trades[j]) == 0
    ensures Tally(trades, f) == Tally(trades[..k], g)
    decreases |trades|
  {
    if trades == [] {
    } else {
      var n := |trades| - 1;
      if k == |trades| {
        assert trades[..k] == trades;
        TallyOnPrefix(trades[..n], n, f, g);
        assert trades[..n][..n] == trades[..n];
      } else {
        TallyOnPrefix(trades[..n], k, f, g);
        assert trades[..n][..k] == trades[..k];
      }
    }
  }

  lemma {:induction false} TallyWithout(trades: seq<Trade>, i: nat, f: Trade -> int)
    requires i < |trades|
    ensures Tally(trades, f) == Tally(trades[..i] + trades[i + 1..], f) + f(trades[i])
    decreases |trades|
  {
    var n := |trades| - 1;
    if i == n {
      assert trades[..i] + trades[i + 1..] == trades[..n];
    } else {
      TallyWithout(trades[..n], i, f);
      assert trades[..n][..i] + trades[..n][i + 1..] == trades[..i] + trades[i + 1..n];
      assert trades[..i] + trades[i + 1..] == (trades[..i] + trades[i + 1..n]) + [trades[n]];
      TallyAppend(trades[..i] + trades[i + 1..n], trades[n], f);
    }
  }

  lemma WithoutOne(s: seq<Trade>, i: nat)
    requires i < |s|
    ensures multiset(s[..i] + s[i + 1..]) == multiset(s) - multiset{s[i]}
  {
    assert s == s[..i] + ([s[i]] + s[i + 1..]);
    assert multiset(s) == multiset(s[..i]) + (multiset{s[i]} + multiset(s[i + 1..]));
    assert multiset(s[..i] + s[i + 1..]) == multiset(s[..i]) + multiset(s[i + 1..]);
  }

  /** The last trade of one order, taken out of the other. */
  lemma LastOccurs(a: seq<Trade>, b: seq<Trade>) returns (i: nat)
    requires multiset(a) == multiset(b) && a != []
    ensures i < |b| && b[i] == a[|a| - 1]
    ensures multiset(a[..|a| - 1]) == multiset(b[..i] + b[i + 1..])
  {
    var n := |a| - 1;
    assert a[n] in multiset(a);
    i :| 0 <= i < |b| && b[i] == a[n];
    WithoutOne(a, n);
    WithoutOne(b, i);
    assert a[..n] + a[n + 1..] == a[..n];
  }

  /** A sum does not depend on the order of the trades. */
  lemma {:induction false} TallyPermutes(a: seq<Trade>, b: seq<Trade>, f: Trade -> int)
    requires multiset(a) == multiset(b)
    ensures Tally(a, f) == Tally(b, f)
    decreases |a|
  {
    hide Tally;
    if a == [] {
      assert |b| == |multiset(b)| == 0;
    } else {
      var n := |a| - 1;
      var i := LastOccurs(a, b);
      TallyPermutes(a[..n], b[..i] + b[i + 1..], f);
      TallyWithout(b, i, f);
      TallyWithout(a, n, f);
      assert a[..n] + a[n + 1..] == a[..n];
    }
  }

  // ---- The chart -----------------------------------------------------------------------------------------

  function Floor(t: int, bucket: int): (start: int)
    requires bucket > 0
    ensures start <= t < start + bucket
  {
    t - t % bucket
  }

  lemma FloorsApart(s: int, t: int, bucket: int)
    requires bucket > 0 && s <= t
    ensures Floor(s, bucket) == Floor(t, bucket) || Floor(s, bucket) + bucket <= Floor(t, bucket)
  {
    var a, b := s / bucket, t / bucket;
    assert s == a * bucket + s % bucket && t == b * bucket + t % bucket;
    if a < b {
      assert (a + 1) * bucket <= b * bucket;
    } else if b < a {
      assert (b + 1) * bucket <= a * bucket;
    }
  }

  function Clamp(x: int): (bucket: int)
    ensures 1_000 <= bucket <= 86_400_000
    ensures 1_000 <= x <= 86_400_000 ==> bucket == x
    ensures x < 1_000 ==> bucket == 1_000
    ensures 86_400_000 < x ==> bucket == 86_400_000
  {
    if x < 1_000 then 1_000 else if x > 86_400_000 then 86_400_000 else x
  }

  ghost predicate Sorted(rows: seq<Trade>) {
    forall i, j :: 0 <= i < j < |rows| ==> rows[i].at <= rows[j].at
  }

  /** The rows the query returns. */
  function Read(sorted: seq<Trade>): (rows: seq<Trade>)
    ensures rows <= sorted && |rows| == if |sorted| < 5000 then |sorted| else 5000
  {
    if |sorted| <= LIMIT then sorted else sorted[..LIMIT]
  }

  function Buckets(rows: seq<Trade>, bucket: int): set<int>
    requires bucket > 0
  {
    set i | 0 <= i < |rows| :: Floor(rows[i].at, bucket)
  }

  function ClosedBuckets(points: seq<Point>, bucket: int): set<int> {
    set i | 1 <= i < |points| :: points[i].start - bucket
  }

  /** The point shows the prices of the inventory at its boundary, and the volume of its bucket. */
  ghost predicate PointOk(m: Math, liquidity: int, n: nat, rows: seq<Trade>, bucket: int, p: Point)
    requires Laws(m)
  {
    var inventory := InventoryAt(rows, n, p.start);
    && Prices(m, inventory, liquidity) == Ok(p.prices)
    && p.volume == VolumeIn(rows, p.start - bucket, p.start)
  }

  ghost predicate OpeningOk(m: Math, liquidity: int, n: nat, p: Point)
    requires Laws(m)
  {
    Prices(m, Zeros(n), liquidity) == Ok(p.prices) && p.volume == 0
  }

  /** An opening point, then one faithful closing point for each bucket that has a trade, in order. */
  ghost predicate Charts(m: Math, liquidity: int, n: nat, rows: seq<Trade>, bucket: int, points: seq<Point>)
    requires Laws(m) && bucket > 0
  {
    && points != [] && OpeningOk(m, liquidity, n, points[0])
    && (rows != [] ==> points[0].start == Floor(rows[0].at, bucket))
    && (forall i, j :: 1 <= i < j < |points| ==> points[i].start < points[j].start)
    && ClosedBuckets(points, bucket) == Buckets(rows, bucket)
    && (forall i :: 1 <= i < |points| ==> PointOk(m, liquidity, n, rows, bucket, points[i]))
  }

  /** A boundary whose inventory cannot be priced. */
  ghost predicate Unpriceable(m: Math, liquidity: int, n: nat, rows: seq<Trade>, bucket: int)
    requires Laws(m) && bucket > 0
  {
    || Prices(m, Zeros(n), liquidity).Err?
    || exists i :: 0 <= i < |rows| && Prices(m, InventoryAt(rows, n, Floor(rows[i].at, bucket) + bucket), liquidity).Err?
  }

  /** What the loop has replayed after `k` rows. */
  ghost predicate Replayed(rows: seq<Trade>, k: nat, n: nat, inventory: seq<int>)
    requires k <= |rows|
  {
    |inventory| == n && forall o :: 0 <= o < n ==> inventory[o] == Tally(rows[..k], MovesInAll(o))
  }

  /** The points drawn after `k` rows: one for each bucket before the current one. */
  ghost predicate Drawn(
      m: Math, liquidity: int, n: nat, rows: seq<Trade>, k: nat, bucket: int, points: seq<Point>, start: int
    )
    requires Laws(m) && bucket > 0 && k <= |rows|
  {
    && points != []
    && ClosedBuckets(points, bucket) == Buckets(rows[..k], bucket) - {start}
    && (forall i, j :: 1 <= i < j < |points| ==> points[i].start < points[j].start)
    && (forall i :: 1 <= i < |points| ==> points[i].start <= start && PointOk(m, liquidity, n, rows, bucket, points[i]))
  }

  /** At a bucket's end, the replayed inventory and volume are those of the whole history at that time. */
  lemma BoundaryReached(rows: seq<Trade>, k: nat, n: nat, inventory: seq<int>, volume: int, bucket: int, start: int)
    requires bucket > 0 && Sorted(rows) && 0 < k <= |rows| && start == Floor(rows[k - 1].at, bucket)
    requires k < |rows| ==> Floor(rows[k].at, bucket) != start
    requires Replayed(rows, k, n, inventory) && volume == VolumeIn(rows[..k], start, start + bucket)
    ensures inventory == InventoryAt(rows, n, start + bucket)
    ensures volume == VolumeIn(rows, start, start + bucket)
    ensures k < |rows| ==> start + bucket <= Floor(rows[k].at, bucket)
  {
    hide Floor;
    forall j | k <= j < |rows| ensures start + bucket <= rows[j].at {
      FloorsApart(rows[k - 1].at, rows[k].at, bucket);
      assert Floor(rows[k].at, bucket) <= rows[k].at <= rows[j].at;
    }
    if k < |rows| {
      FloorsApart(rows[k - 1].at, rows[k].at, bucket);
    }
    forall o | 0 <= o < n ensures inventory[o] == InventoryAt(rows, n, start + bucket)[o] {
      TallyOnPrefix(rows, k, MovesBefore(o, start + bucket), MovesInAll(o));
    }
    TallyOnPrefix(rows, k, Volumes(start, start + bucket), Volumes(start, start + bucket));
  }

  lemma ReplayStep(rows: seq<Trade>, k: nat, n: nat, inventory: seq<int>)
    requires k < |rows| && Replayed(rows, k, n, inventory) && rows[k].outcome < n
    ensures var row := rows[k];
            Replayed(rows, k + 1, n, inventory[row.outcome := inventory[row.outcome] + Delta(row.side, row.quantity)])
  {
    assert rows[..k + 1] == rows[..k] + [rows[k]];
    forall o | 0 <= o < n ensures Tally(rows[..k + 1], MovesInAll(o)) == inventory[o] + Effect(rows[k], o) {
      TallyAppend(rows[..k], rows[k], MovesInAll(o));
    }
  }

  /** The volume restarts with the bucket. */
  lemma VolumeStep(rows: seq<Trade>, k: nat, bucket: int, start: int, volume: int)
    requires bucket > 0 && Sorted(rows) && k < |rows|
    requires k > 0 ==> start == Floor(rows[k - 1].at, bucket)
    requires volume == VolumeIn(rows[..k], start, start + bucket)
    ensures var next := Floor(rows[k].at, bucket);
            VolumeIn(rows[..k + 1], next, next + bucket)
            == (if next == start || k == 0 then volume else 0) + rows[k].total
  {
    hide Floor;
    var next := Floor(rows[k].at, bucket);
    assert rows[..k + 1] == rows[..k] + [rows[k]];
    TallyAppend(rows[..k], rows[k], Volumes(next, next + bucket));
    if k > 0 && next != start {
      forall j | 0 <= j < k ensures rows[..k][j].at < next {
        FloorsApart(rows[k - 1].at, rows[k].at, bucket);
        assert rows[j].at <= rows[k - 1].at < start + bucket;
      }
      TallyOnPrefix(rows[..k], 0, Volumes(next, next + bucket), Volumes(next, next + bucket));
    }
  }

  lemma PointStep(
      m: Math, liquidity: int, n: nat, rows: seq<Trade>, k: nat, bucket: int, points: seq<Point>, start: int,
      p: Point, next: int
    )
    requires Laws(m) && bucket > 0 && k <= |rows|
    requires Drawn(m, liquidity, n, rows, k, bucket, points, start) && start in Buckets(rows[..k], bucket)
    requires p.start == start + bucket <= next && PointOk(m, liquidity, n, rows, bucket, p)
    requires next !in Buckets(rows[..k], bucket)
    ensures Drawn(m, liquidity, n, rows, k, bucket, points + [p], next)
  {
    hide PointOk, Buckets;
    var all := points + [p];
    assert ClosedBuckets(all, bucket) == ClosedBuckets(points, bucket) + {start} by {
      assert all[|points|] == p;
      assert forall i :: 1 <= i < |points| ==> all[i] == points[i];
    }
  }

  lemma BucketStep(rows: seq<Trade>, k: nat, bucket: int)
    requires bucket > 0 && k < |rows|
    ensures Buckets(rows[..k + 1], bucket) == Buckets(rows[..k], bucket) + {Floor(rows[k].at, bucket)}
  {
    hide Floor;
    assert rows[..k + 1] == rows[..k] + [rows[k]];
    assert rows[..k + 1][k] == rows[k];
    forall x | x in Buckets(rows[..k], bucket) ensures x in Buckets(rows[..k + 1], bucket) {
      var i :| 0 <= i < k && x == Floor(rows[..k][i].at, bucket);
      assert rows[..k + 1][i] == rows[..k][i];
    }
  }

  /** All earlier rows are in earlier buckets. */
  lemma BucketIsNew(rows: seq<Trade>, k: nat, bucket: int)
    requires bucket > 0 && Sorted(rows) && 0 < k < |rows|
    ensures Floor(rows[k - 1].at, bucket) in Buckets(rows[..k], bucket)
    ensures Floor(rows[k].at, bucket) != Floor(rows[k - 1].at, bucket) ==>
      Floor(rows[k].at, bucket) !in Buckets(rows[..k], bucket)
  {
    hide Floor;
    assert rows[..k][k - 1] == rows[k - 1];
    FloorsApart(rows[k - 1].at, rows[k].at, bucket);
    forall i | 0 <= i < k ensures Floor(rows[..k][i].at, bucket) <= Floor(rows[k - 1].at, bucket) {
      FloorsApart(rows[i].at, rows[k - 1].at, bucket);
    }
  }

  lemma BoundaryUnpriceable(m: Math, liquidity: int, n: nat, rows: seq<Trade>, bucket: int, i: nat)
    requires Laws(m) && bucket > 0 && i < |rows|
    requires Prices(m, InventoryAt(rows, n, Floor(rows[i].at, bucket) + bucket), liquidity).Err?
    ensures Unpriceable(m, liquidity, n, rows, bucket)
  {}

  method InstanceHistory(m: Math, liquidity: int, n: nat, closeMs: int, sorted: seq<Trade>, bucketMs: int)
    returns (r: Result<seq<Point>>)
    requires Laws(m) && Sorted(sorted)
    requires forall i :: 0 <= i < |sorted| ==> sorted[i].outcome < n
    ensures r.Ok? ==> Charts(m, liquidity, n, Read(sorted), Clamp(bucketMs), r.value)
    ensures r.Ok? && sorted == [] ==> r.value[0].start == Floor(closeMs, Clamp(bucketMs))
    ensures r.Err? ==> Unpriceable(m, liquidity, n, Read(sorted), Clamp(bucketMs))
  {
    hide Prices, Floor, InventoryAt, Replayed, Drawn, Laws, Volumes, MovesInAll;
    var bucket, rows := Clamp(bucketMs), Read(sorted);
    var opening := Prices(m, Zeros(n), liquidity);
    if opening.Err? {
      return Err(opening.error);
    }
    if rows == [] {
      assert Buckets(rows, bucket) == {} && ClosedBuckets([Point(Floor(closeMs, bucket), opening.value, 0)], bucket) == {};
      return Ok([Point(Floor(closeMs, bucket), opening.value, 0)]);
    }
    var inventory, volume, start := Zeros(n), 0, Floor(rows[0].at, bucket);
    var points := [Point(start, opening.value, 0)];
    NothingDrawn(m, liquidity, n, rows, bucket, points, start);
    var k := 0;
    while k < |rows|
      invariant 0 <= k <= |rows|
      invariant points != [] && points[0] == Point(Floor(rows[0].at, bucket), opening.value, 0)
      invariant start == Floor(rows[if k == 0 then 0 else k - 1].at, bucket)
      invariant |inventory| == n && Replayed(rows, k, n, inventory)
      invariant volume == VolumeIn(rows[..k], start, start + bucket)
      invariant Drawn(m, liquidity, n, rows, k, bucket, points, start)
    {
      var row := rows[k];
      var next := Floor(row.at, bucket);
      VolumeStep(rows, k, bucket, start, volume);
      if next != start {
        var prices := Prices(m, inventory, liquidity);
        BoundaryReached(rows, k, n, inventory, volume, bucket, start);
        if prices.Err? {
          BoundaryUnpriceable(m, liquidity, n, rows, bucket, k - 1);
          return Err(prices.error);
        }
        BucketIsNew(rows, k, bucket);
        PointStep(m, liquidity, n, rows, k, bucket, points, start, Point(start + bucket, prices.value, volume), next);
        points := points + [Point(start + bucket, prices.value, volume)];
        volume := 0;
      }
      DrawnStep(m, liquidity, n, rows, k, bucket, points, next);
      ReplayStep(rows, k, n, inventory);
      start := next;
      inventory := inventory[row.outcome := inventory[row.outcome] + (if row.side == Buy then row.quantity else -row.quantity)];
      volume := volume + row.total;
      k := k + 1;
    }
    var prices := Prices(m, inventory, liquidity);
    BoundaryReached(rows, k, n, inventory, volume, bucket, start);
    if prices.Err? {
      BoundaryUnpriceable(m, liquidity, n, rows, bucket, k - 1);
      return Err(prices.error);
    }
    LastPoint(m, liquidity, n, rows, bucket, points, start, Point(start + bucket, prices.value, volume));
    r := Ok(points + [Point(start + bucket, prices.value, volume)]);
  }

  lemma NothingDrawn(m: Math, liquidity: int, n: nat, rows: seq<Trade>, bucket: int, points: seq<Point>, start: int)
    requires Laws(m) && bucket > 0 && |points| == 1
    ensures Drawn(m, liquidity, n, rows, 0, bucket, points, start) && Replayed(rows, 0, n, Zeros(n))
    ensures VolumeIn(rows[..0], start, start + bucket) == 0
  {
    assert Buckets(rows[..0], bucket) == {} && ClosedBuckets(points, bucket) == {};
  }

  lemma DrawnStep(m: Math, liquidity: int, n: nat, rows: seq<Trade>, k: nat, bucket: int, points: seq<Point>, next: int)
    requires Laws(m) && bucket > 0 && k < |rows| && next == Floor(rows[k].at, bucket)
    requires Drawn(m, liquidity, n, rows, k, bucket, points, next)
    ensures Drawn(m, liquidity, n, rows, k + 1, bucket, points, next)
  {
    hide PointOk, Buckets, Floor;
    BucketStep(rows, k, bucket);
  }

  lemma LastPoint(
      m: Math, liquidity: int, n: nat, rows: seq<Trade>, bucket: int, points: seq<Point>, start: int, p: Point
    )
    requires Laws(m) && bucket > 0 && rows != []
    requires Drawn(m, liquidity, n, rows, |rows|, bucket, points, start) && start == Floor(rows[|rows| - 1].at, bucket)
    requires OpeningOk(m, liquidity, n, points[0]) && points[0].start == Floor(rows[0].at, bucket)
    requires p.start == start + bucket && PointOk(m, liquidity, n, rows, bucket, p)
    ensures Charts(m, liquidity, n, rows, bucket, points + [p])
  {
    hide PointOk, Floor, OpeningOk;
    var all := points + [p];
    assert rows[..|rows|] == rows;
    assert ClosedBuckets(all, bucket) == ClosedBuckets(points, bucket) + {start} by {
      assert all[|points|] == p;
      assert forall i :: 1 <= i < |points| ==> all[i] == points[i];
    }
    assert start in Buckets(rows, bucket);
  }
}
