/** One event stream: it subscribes, catches up from the durable outbox, and then merges the
    broadcast feed, keeping a cursor of the last event it sent. */
module Streams {

  const PAGE := 100

  /** One outbox row of the instance. Ids of one instance grow in commit order, because they are
      drawn while its row is locked. */
  datatype Row = Row(id: nat, payload: nat)

  /** What the receiver holds: a broadcast row, by its position in the outbox, or the channel's
      notice that rows before this point were dropped. */
  datatype Item = Heard(index: nat) | Lagged

  /** `fed` counts the outbox rows whose notification was handed over, dropped with a notice, or
      lost. */
  datatype Feed = Feed(log: seq<Row>, queue: seq<Item>, fed: nat)

  datatype Mode = CatchingUp | Waiting | Ended

  datatype Client = Client(cursor: nat, emitted: seq<Row>, mode: Mode)

  ghost predicate Increasing(rows: seq<Row>) {
    forall i, j :: 0 <= i < j < |rows| ==> rows[i].id < rows[j].id
  }

  /** The rows with an id above `low` and up to `high`, in order. */
  function Between(log: seq<Row>, low: nat, high: nat): (rows: seq<Row>)
    ensures |rows| <= |log|
  {
    if log == [] then []
    else
      var last, rest := log[|log| - 1], Between(log[..|log| - 1], low, high);
      if low < last.id <= high then rest + [last] else rest
  }

  /** The rows above the cursor. */
  function Above(log: seq<Row>, cursor: nat): (rows: seq<Row>)
    ensures |rows| <= |log|
  {
    if log == [] then []
    else
      var last, rest := log[|log| - 1], Above(log[..|log| - 1], cursor);
      if cursor < last.id then rest + [last] else rest
  }

  function Least(a: nat, b: nat): nat {
    if a <= b then a else b
  }

  // ---- The stream's own steps -------------------------------------------------------------------------

  /** The query of one catch-up page. */
  function PageOf(log: seq<Row>, cursor: nat): (rows: seq<Row>) {
    Above(log, cursor)[..Least(PAGE, |Above(log, cursor)|)]
  }

  function Sent(c: Client, row: Row): Client {
    if row.id > c.cursor then c.(cursor := row.id, emitted := c.emitted + [row]) else c
  }

  function SentAll(c: Client, rows: seq<Row>): Client {
    if rows == [] then c else Sent(SentAll(c, rows[..|rows| - 1]), rows[|rows| - 1])
  }

  /** One page of catching up; a page that is not full ends it. */
  function CaughtUp(c: Client, log: seq<Row>): Client {
    var rows := PageOf(log, c.cursor);
    var next := SentAll(c, rows);
    if |rows| < PAGE then next.(mode := Waiting) else next
  }

  function Received(c: Client, log: seq<Row>, item: Item): Client {
    match item
    case Heard(i) => if i < |log| then Sent(c, log[i]) else c
    case Lagged => c.(mode := CatchingUp)
  }

  class Stream {
    var cursor: nat
    var emitted: seq<Row>
    var mode: Mode

    function State(): Client
      reads this
    {
      Client(cursor, emitted, mode)
    }

    constructor (after: nat)
      ensures State() == Client(after, [], CatchingUp)
    {
      cursor, emitted, mode := after, [], CatchingUp;
    }

    method Emit(row: Row)
      modifies this
      ensures State() == Sent(old(State()), row)
    {
      if row.id > cursor {
        cursor := row.id;
        emitted := emitted + [row];
      }
    }

    method CatchUp(log: seq<Row>)
      modifies this
      ensures State() == CaughtUp(old(State()), log)
    {
      var rows := PageOf(log, cursor);
      var k := 0;
      while k < |rows|
        invariant 0 <= k <= |rows|
        invariant State() == SentAll(old(State()), rows[..k])
      {
        Emit(rows[k]);
        assert rows[..k + 1][..k] == rows[..k];
        k := k + 1;
      }
      assert rows[..k] == rows;
      if |rows| < PAGE {
        mode := Waiting;
      }
    }

    method Receive(log: seq<Row>, item: Item)
      modifies this
      ensures State() == Received(old(State()), log, item)
    {
      match item
      case Heard(i) =>
        if i < |log| {
          Emit(log[i]);
        }
      case Lagged => mode := CatchingUp;
    }
  }

  // ---- The whole system ---------------------------------------------------------------------------------

  datatype Event =
    | Committed(row: Row)
    | Delivered
    | Redelivered(index: nat)
    | DroppedWithNotice(count: nat)
    | Overflowed(count: nat)
    | LostSilently(count: nat)
    | PageRead
    | Taken
    | SafetyTick
    | Stopped

  datatype System = System(feed: Feed, client: Client)

  ghost predicate Possible(y: System, event: Event) {
    var f := y.feed;
    match event
    case Committed(row) => Increasing(f.log + [row])
    case Delivered => f.fed < |f.log|
    case Redelivered(i) => i < f.fed
    case DroppedWithNotice(n) => f.fed + n <= |f.log|
    case Overflowed(n) => n <= |f.queue|
    case LostSilently(n) => f.fed + n <= |f.log|
    case PageRead => y.client.mode == CatchingUp
    case Taken => y.client.mode == Waiting && f.queue != []
    case SafetyTick => y.client.mode == Waiting
    case Stopped => true
  }

  function Next(y: System, event: Event): System {
    var f := y.feed;
    match event
    case Committed(row) => y.(feed := f.(log := f.log + [row]))
    case Delivered => y.(feed := f.(queue := f.queue + [Heard(f.fed)], fed := f.fed + 1))
    case Redelivered(i) => y.(feed := f.(queue := f.queue + [Heard(i)]))
    case DroppedWithNotice(n) => y.(feed := f.(queue := f.queue + [Lagged], fed := f.fed + n))
    case Overflowed(n) => if n <= |f.queue| then y.(feed := f.(queue := [Lagged] + f.queue[n..])) else y
    case LostSilently(n) => y.(feed := f.(fed := f.fed + n))
    case PageRead => y.(client := CaughtUp(y.client, f.log))
    case Taken =>
      if f.queue == [] then y
      else System(f.(queue := f.queue[1..]), Received(y.client, f.log, f.queue[0]))
    case SafetyTick => y.(client := y.client.(mode := CatchingUp))
    case Stopped => y.(client := y.client.(mode := Ended))
  }

  /** The stream subscribes before it first reads the outbox: at that moment some rows are committed
      and some of those already announced. */
  ghost predicate Start(y: System, after: nat) {
    && Increasing(y.feed.log) && y.feed.fed <= |y.feed.log| && y.feed.queue == []
    && y.client == Client(after, [], CatchingUp)
  }

  function Play(y: System, events: seq<Event>): System {
    if events == [] then y else Next(Play(y, events[..|events| - 1]), events[|events| - 1])
  }

  ghost predicate PossibleRun(y: System, events: seq<Event>) {
    forall k :: 0 <= k < |events| ==> Possible(Play(y, events[..k]), events[k])
  }

  // ---- Facts about the outbox --------------------------------------------------------------------------

  /** Raising the upper bound to the next row above it adds exactly that row. */
  lemma {:induction false} BetweenNext(log: seq<Row>, low: nat, high: nat, j: nat)
    requires Increasing(log) && low <= high && j < |log| && high < log[j].id
    requires forall i :: 0 <= i < j ==> log[i].id <= high
    ensures Between(log, low, log[j].id) == Between(log, low, high) + [log[j]]
  {
    var n := |log| - 1;
    if j == n {
      BetweenSame(log[..n], low, high, log[j].id);
    } else {
      BetweenNext(log[..n], low, high, j);
    }
  }

  lemma {:induction false} BetweenSame(log: seq<Row>, low: nat, high: nat, higher: nat)
    requires high <= higher && forall i :: 0 <= i < |log| ==> log[i].id <= high || higher < log[i].id
    ensures Between(log, low, high) == Between(log, low, higher)
  {
    if log != [] {
      BetweenSame(log[..|log| - 1], low, high, higher);
    }
  }

  /** The first `n` rows are passed, the others are not. */
  ghost predicate SplitAt(log: seq<Row>, cursor: nat, n: int) {
    && 0 <= n <= |log|
    && (forall i :: 0 <= i < n ==> log[i].id <= cursor)
    && (forall i :: n <= i < |log| ==> cursor < log[i].id)
  }

  lemma SplitFurther(log: seq<Row>, cursor: nat, n: nat)
    requires log != [] && Increasing(log) && SplitAt(log[..|log| - 1], cursor, n)
    ensures cursor < log[|log| - 1].id ==> SplitAt(log, cursor, n)
    ensures log[|log| - 1].id <= cursor ==> n == |log| - 1 && SplitAt(log, cursor, |log|)
  {
    var m := |log| - 1;
    assert forall i :: 0 <= i < m ==> log[..m][i] == log[i];
    assert n == m || log[n].id < log[m].id;
  }

  lemma {:induction false} AboveIsSuffix(log: seq<Row>, cursor: nat)
    requires Increasing(log)
    ensures var n := |log| - |Above(log, cursor)|;
            SplitAt(log, cursor, n) && Above(log, cursor) == log[n..]
  {
    hide SplitAt, Increasing;
    if log == [] {
      assert SplitAt(log, cursor, 0) by { NothingToSplit(cursor); }
    } else {
      var m := |log| - 1;
      PrefixIncreases(log, m);
      AboveIsSuffix(log[..m], cursor);
      var n := m - |Above(log[..m], cursor)|;
      SplitFurther(log, cursor, n);
      assert log == log[..m] + [log[m]];
    }
  }

  lemma NothingToSplit(cursor: nat)
    ensures SplitAt([], cursor, 0)
  {}

  lemma PrefixIncreases(log: seq<Row>, m: nat)
    requires Increasing(log) && m <= |log|
    ensures Increasing(log[..m])
  {}

  // ---- Emitted ids only grow, in every run --------------------------------------------------------------

  /** What was sent is increasing, above the starting cursor, and real. */
  ghost predicate Ordered(y: System, after: nat) {
    && Increasing(y.feed.log)
    && Increasing(y.client.emitted)
    && after <= y.client.cursor
    && (forall k :: 0 <= k < |y.client.emitted| ==>
          after < y.client.emitted[k].id <= y.client.cursor && y.client.emitted[k] in y.feed.log)
  }

  lemma SentKeepsOrdered(log: seq<Row>, queue: seq<Item>, fed: nat, c: Client, row: Row, after: nat)
    requires Ordered(System(Feed(log, queue, fed), c), after) && row in log
    ensures Ordered(System(Feed(log, queue, fed), Sent(c, row)), after)
  {}

  lemma {:induction false} SentAllKeepsOrdered(
      log: seq<Row>, queue: seq<Item>, fed: nat, c: Client, rows: seq<Row>, after: nat
    )
    requires Ordered(System(Feed(log, queue, fed), c), after) && forall k :: 0 <= k < |rows| ==> rows[k] in log
    ensures Ordered(System(Feed(log, queue, fed), SentAll(c, rows)), after)
  {
    hide Ordered, Sent;
    if rows != [] {
      var n := |rows| - 1;
      SentAllKeepsOrdered(log, queue, fed, c, rows[..n], after);
      SentKeepsOrdered(log, queue, fed, SentAll(c, rows[..n]), rows[n], after);
    }
  }

  lemma NextKeepsOrdered(y: System, event: Event, after: nat)
    requires Ordered(y, after) && Possible(y, event)
    ensures Ordered(Next(y, event), after)
  {
    hide PageOf, SentAll, Sent, Increasing;
    var f := y.feed;
    match event
    case PageRead =>
      AboveIsSuffix(f.log, y.client.cursor);
      PageIsReal(f.log, y.client.cursor);
      SentAllKeepsOrdered(f.log, f.queue, f.fed, y.client, PageOf(f.log, y.client.cursor), after);
    case Taken =>
      if f.queue[0].Heard? && f.queue[0].index < |f.log| {
        SentKeepsOrdered(f.log, f.queue, f.fed, y.client, f.log[f.queue[0].index], after);
      }
    case _ =>
  }

  lemma PageIsReal(log: seq<Row>, cursor: nat)
    requires Increasing(log)
    ensures forall k :: 0 <= k < |PageOf(log, cursor)| ==> PageOf(log, cursor)[k] in log
  {
    AboveIsSuffix(log, cursor);
  }

  /** In every run, with any losses, duplicates and reorderings, the emitted ids strictly increase. */
  lemma {:induction false} EmittedIdsIncrease(y: System, after: nat, events: seq<Event>)
    requires Start(y, after) && PossibleRun(y, events)
    ensures Ordered(Play(y, events), after)
  {
    hide Ordered, Next, Possible;
    if events == [] {
      assert Ordered(y, after) by { StartIsOrdered(y, after); }
    } else {
      var n := |events| - 1;
      PrefixIsPossible(y, events, n);
      EmittedIdsIncrease(y, after, events[..n]);
      NextKeepsOrdered(Play(y, events[..n]), events[n], after);
    }
  }

  lemma StartIsOrdered(y: System, after: nat)
    requires Start(y, after)
    ensures Ordered(y, after)
  {}

  lemma PrefixIsPossible(y: System, events: seq<Event>, n: nat)
    requires PossibleRun(y, events) && n <= |events|
    ensures PossibleRun(y, events[..n])
    ensures n < |events| ==> Possible(Play(y, events[..n]), events[n])
  {
    hide Possible, Play;
    forall k | 0 <= k < n ensures Possible(Play(y, events[..n][..k]), events[..n][k]) {
      assert events[..n][..k] == events[..k];
    }
  }

  // ---- Completeness when every gap is noticed -------------------------------------------------------------

  /** How many rows the cursor has passed. */
  function Reach(log: seq<Row>, cursor: nat): nat {
    |log| - |Above(log, cursor)|
  }

  /** Reading on from a point where `reach` rows are passed, no row below `fed` is jumped over
      before a notice makes the stream catch up again. */
  ghost predicate Follows(queue: seq<Item>, reach: nat, fed: nat) {
    if queue == [] then fed <= reach
    else
      match queue[0]
      case Lagged => true
      case Heard(j) => j <= reach && Follows(queue[1..], if reach <= j then j + 1 else reach, fed)
  }

  ghost predicate Complete(y: System, after: nat) {
    var f, c := y.feed, y.client;
    && Increasing(f.log) && f.fed <= |f.log|
    && after <= c.cursor && c.emitted == Between(f.log, after, c.cursor)
    && (c.cursor == after || exists k :: 0 <= k < |f.log| && f.log[k].id == c.cursor)
    && (forall k :: 0 <= k < |f.queue| && f.queue[k].Heard? ==> f.queue[k].index < f.fed)
    && (c.mode == Waiting ==> Follows(f.queue, Reach(f.log, c.cursor), f.fed))
  }

  lemma {:induction false} FollowsFurther(queue: seq<Item>, reach: nat, further: nat, fed: nat)
    requires Follows(queue, reach, fed) && reach <= further
    ensures Follows(queue, further, fed)
  {
    if queue != [] && queue[0].Heard? {
      var j := queue[0].index;
      FollowsFurther(queue[1..], if reach <= j then j + 1 else reach, if further <= j then j + 1 else further, fed);
    }
  }

  /** Appending the next row, an old row or a notice keeps the queue in step. */
  lemma {:induction false} FollowsOneMore(queue: seq<Item>, reach: nat, fed: nat, item: Item, next: nat)
    requires Follows(queue, reach, fed)
    requires item.Lagged? || (item.index < fed && next == fed) || (item.index == fed && next == fed + 1)
    ensures Follows(queue + [item], reach, next)
  {
    if queue == [] {
      assert ([item])[1..] == [];
    } else {
      assert (queue + [item])[1..] == queue[1..] + [item];
      if queue[0].Heard? {
        var j := queue[0].index;
        FollowsOneMore(queue[1..], if reach <= j then j + 1 else reach, fed, item, next);
      }
    }
  }

  lemma {:induction false} FollowsWhenPassed(queue: seq<Item>, reach: nat, fed: nat)
    requires fed <= reach && forall k :: 0 <= k < |queue| && queue[k].Heard? ==> queue[k].index < fed
    ensures Follows(queue, reach, fed)
  {
    if queue != [] && queue[0].Heard? {
      FollowsWhenPassed(queue[1..], reach, fed);
    }
  }

  lemma ReachOfRow(log: seq<Row>, k: nat)
    requires Increasing(log) && k < |log|
    ensures Reach(log, log[k].id) == k + 1
  {
    hide Above;
    AboveIsSuffix(log, log[k].id);
    assert k + 1 < |log| ==> log[k].id < log[k + 1].id;
  }

  /** Sending consecutive rows, the first being the next one, keeps the record complete. */
  lemma {:induction false} SentRunIsComplete(log: seq<Row>, after: nat, c: Client, n: nat, m: nat)
    requires Increasing(log) && after <= c.cursor && n <= m <= |log| && n == Reach(log, c.cursor)
    requires c.emitted == Between(log, after, c.cursor)
    ensures var next := SentAll(c, log[n..m]);
            && after <= next.cursor && next.emitted == Between(log, after, next.cursor) && next.mode == c.mode
            && Reach(log, next.cursor) == m
            && (if n < m then next.cursor == log[m - 1].id else next == c)
    decreases m
  {
    hide Above, Between;
    if n < m {
      assert log[n..m][..m - 1 - n] == log[n..m - 1] && log[n..m][m - 1 - n] == log[m - 1];
      SentRunIsComplete(log, after, c, n, m - 1);
      var before := SentAll(c, log[n..m - 1]);
      AboveIsSuffix(log, before.cursor);
      assert SentAll(c, log[n..m]) == Sent(before, log[m - 1]);
      BetweenNext(log, after, before.cursor, m - 1);
      ReachOfRow(log, m - 1);
    } else {
      assert log[n..m] == [];
    }
  }

  lemma PageIsRun(log: seq<Row>, cursor: nat)
    requires Increasing(log)
    ensures var n := Reach(log, cursor);
            var m := n + |PageOf(log, cursor)|;
            && m <= |log| && PageOf(log, cursor) == log[n..m]
            && (|PageOf(log, cursor)| < PAGE ==> m == |log|)
  {
    AboveIsSuffix(log, cursor);
  }

  lemma PageKeepsComplete(y: System, after: nat)
    requires Complete(y, after) && y.client.mode == CatchingUp
    ensures Complete(Next(y, PageRead), after)
  {
    hide PageOf, Above, Between, SentAll, Follows;
    var f, c := y.feed, y.client;
    var n, page := Reach(f.log, c.cursor), PageOf(f.log, c.cursor);
    PageIsRun(f.log, c.cursor);
    SentRunIsComplete(f.log, after, c, n, n + |page|);
    if |page| < PAGE {
      FollowsWhenPassed(f.queue, |f.log|, f.fed);
    }
  }

  lemma TakenKeepsComplete(y: System, after: nat)
    requires Complete(y, after) && y.client.mode == Waiting && y.feed.queue != []
    ensures Complete(Next(y, Taken), after)
  {
    hide Between, Above;
    var f, c := y.feed, y.client;
    var reach := Reach(f.log, c.cursor);
    AboveIsSuffix(f.log, c.cursor);
    match f.queue[0]
    case Lagged =>
    case Heard(j) =>
      if f.log[j].id > c.cursor {
        BetweenNext(f.log, after, c.cursor, j);
        AboveIsSuffix(f.log, f.log[j].id);
        FollowsFurther(f.queue[1..], j + 1, Reach(f.log, f.log[j].id), f.fed);
      }
  }

  lemma CommitKeepsComplete(y: System, row: Row, after: nat)
    requires Complete(y, after) && Increasing(y.feed.log + [row])
    ensures Complete(Next(y, Committed(row)), after)
  {
    hide Follows;
    var f, c := y.feed, y.client;
    var log := f.log + [row];
    assert log[..|f.log|] == f.log;
    if c.cursor != after {
      var k :| 0 <= k < |f.log| && f.log[k].id == c.cursor;
      assert log[k].id < log[|f.log|].id;
      assert log[k].id == c.cursor;
    }
    assert Between(log, after, c.cursor) == Between(f.log, after, c.cursor);
    if c.mode == Waiting {
      FollowsFurther(f.queue, Reach(f.log, c.cursor), Reach(log, c.cursor), f.fed);
    }
  }

  lemma FeedKeepsComplete(y: System, event: Event, after: nat)
    requires Complete(y, after) && Possible(y, event)
    requires event.Delivered? || event.Redelivered? || event.DroppedWithNotice? || event.Overflowed?
    ensures Complete(Next(y, event), after)
  {
    hide Between, Reach, Increasing;
    var f, c := y.feed, y.client;
    var reach := Reach(f.log, c.cursor);
    if c.mode == Waiting {
      match event
      case Delivered => FollowsOneMore(f.queue, reach, f.fed, Heard(f.fed), f.fed + 1);
      case Redelivered(i) => FollowsOneMore(f.queue, reach, f.fed, Heard(i), f.fed);
      case DroppedWithNotice(n) => FollowsOneMore(f.queue, reach, f.fed, Lagged, f.fed + n);
      case _ =>
    }
  }

  lemma NextKeepsComplete(y: System, event: Event, after: nat)
    requires Complete(y, after) && Possible(y, event) && !event.LostSilently?
    ensures Complete(Next(y, event), after)
  {
    hide Complete, CaughtUp, Received, Increasing;
    match event
    case Committed(row) => CommitKeepsComplete(y, row, after);
    case PageRead => PageKeepsComplete(y, after);
    case Taken => TakenKeepsComplete(y, after);
    case SafetyTick => ModeKeepsComplete(y, event, after);
    case Stopped => ModeKeepsComplete(y, event, after);
    case _ => FeedKeepsComplete(y, event, after);
  }

  lemma ModeKeepsComplete(y: System, event: Event, after: nat)
    requires Complete(y, after) && (event == SafetyTick || event == Stopped)
    ensures Complete(Next(y, event), after)
  {}

  lemma StartIsComplete(y: System, after: nat)
    requires Start(y, after)
    ensures Complete(y, after)
  {
    NothingBetween(y.feed.log, after);
  }

  lemma {:induction false} NothingBetween(log: seq<Row>, cursor: nat)
    ensures Between(log, cursor, cursor) == []
  {
    if log != [] {
      NothingBetween(log[..|log| - 1], cursor);
    }
  }

  /** When every gap in the feed is noticed, the stream sends exactly the rows above its starting
      cursor, in order, none skipped and none repeated; and once it has read its queue, it has sent
      them all. */
  lemma {:induction false} StreamSkipsNothing(y: System, after: nat, events: seq<Event>)
    requires Start(y, after) && PossibleRun(y, events)
    requires forall k :: 0 <= k < |events| ==> !events[k].LostSilently?
    ensures var end := Play(y, events);
            && Complete(end, after)
            && end.client.emitted == Between(end.feed.log, after, end.client.cursor)
            && (end.client.mode == Waiting && end.feed.queue == [] && end.feed.fed == |end.feed.log| ==>
                  end.client.emitted == Above(end.feed.log, after))
  {
    hide Complete, Next, Possible;
    if events == [] {
      StartIsComplete(y, after);
    } else {
      var n := |events| - 1;
      PrefixIsPossible(y, events, n);
      StreamSkipsNothing(y, after, events[..n]);
      NextKeepsComplete(Play(y, events[..n]), events[n], after);
    }
    CompleteIsExact(Play(y, events), after);
  }

  lemma CompleteIsExact(y: System, after: nat)
    requires Complete(y, after)
    ensures y.client.emitted == Between(y.feed.log, after, y.client.cursor)
    ensures y.client.mode == Waiting && y.feed.queue == [] && y.feed.fed == |y.feed.log| ==>
      y.client.emitted == Above(y.feed.log, after)
  {
    AboveIsSuffix(y.feed.log, y.client.cursor);
    BetweenIsAbove(y.feed.log, after, y.client.cursor);
  }

  lemma {:induction false} BetweenIsAbove(log: seq<Row>, low: nat, high: nat)
    ensures (forall k :: 0 <= k < |log| ==> log[k].id <= high) ==> Between(log, low, high) == Above(log, low)
  {
    if log != [] {
      BetweenIsAbove(log[..|log| - 1], low, high);
    }
  }

  // ---- Catching up ends -----------------------------------------------------------------------------------

  /** So many pages read in a row. */
  function PagesRead(c: Client, log: seq<Row>, pages: nat): Client
    decreases pages
  {
    if pages == 0 then c else PagesRead(CaughtUp(c, log), log, pages - 1)
  }

  /** Sending rows above the cursor, in order, sends them all. */
  lemma {:induction false} SentInOrder(c: Client, rows: seq<Row>)
    requires Increasing(rows) && forall k :: 0 <= k < |rows| ==> c.cursor < rows[k].id
    ensures SentAll(c, rows)
         == c.(emitted := c.emitted + rows, cursor := if rows == [] then c.cursor else rows[|rows| - 1].id)
  {
    if rows == [] {
      assert c.emitted + rows == c.emitted;
    } else {
      var n := |rows| - 1;
      assert Increasing(rows[..n]);
      SentInOrder(c, rows[..n]);
      assert n > 0 ==> rows[..n][n - 1] == rows[n - 1];
      assert rows == rows[..n] + [rows[n]];
    }
  }

  /** A page sends the next hundred rows, or all that are left. */
  lemma PageSends(c: Client, log: seq<Row>)
    requires Increasing(log)
    ensures var left, next := Above(log, c.cursor), CaughtUp(c, log);
            && next.emitted == c.emitted + left[..Least(100, |left|)]
            && Above(log, next.cursor) == left[Least(100, |left|)..]
            && next.mode == if |left| < 100 then Waiting else c.mode
  {
    hide Above;
    AboveIsSuffix(log, c.cursor);
    var left, n := Above(log, c.cursor), |log| - |Above(log, c.cursor)|;
    var page := left[..Least(100, |left|)];
    SentInOrder(c, page);
    var next := CaughtUp(c, log);
    AboveIsSuffix(log, next.cursor);
    SplitsAlike(log, next.cursor, n + |page|, |log| - |Above(log, next.cursor)|);
    assert log[n..][|page|..] == log[n + |page|..];
  }

  lemma SplitsAlike(log: seq<Row>, cursor: nat, m: nat, n: nat)
    requires SplitAt(log, cursor, m) && SplitAt(log, cursor, n)
    ensures m == n
  {
    var first := if m < n then m else n;
    var row := if first < |log| then log[first] else Row(0, 0);
  }

  /** However long the backlog, after one page for every full hundred rows, and one more, the stream has
      sent all of it and waits for broadcasts; and not a page earlier. */
  lemma {:induction false} CatchUpFinishes(c: Client, log: seq<Row>)
    requires Increasing(log) && c.mode == CatchingUp
    ensures var pages := |Above(log, c.cursor)| / 100;
            && PagesRead(c, log, pages + 1).emitted == c.emitted + Above(log, c.cursor)
            && PagesRead(c, log, pages + 1).mode == Waiting
            && forall k :: 0 <= k <= pages ==> PagesRead(c, log, k).mode == CatchingUp
    decreases |Above(log, c.cursor)|
  {
    hide Above, CaughtUp;
    var left, next := Above(log, c.cursor), CaughtUp(c, log);
    var pages := |left| / 100;
    PageSends(c, log);
    if |left| < 100 {
      assert left[..|left|] == left;
      assert PagesRead(c, log, 1) == PagesRead(next, log, 0);
    } else {
      CatchUpFinishes(next, log);
      assert left == left[..100] + left[100..];
      assert |left[100..]| / 100 == pages - 1;
      assert PagesRead(c, log, pages + 1) == PagesRead(next, log, pages);
      forall k | 0 <= k <= pages ensures PagesRead(c, log, k).mode == CatchingUp {
        if k > 0 {
          assert PagesRead(c, log, k) == PagesRead(next, log, k - 1);
        }
      }
    }
  }

  // ---- And when one is not ------------------------------------------------------------------------------------

  /** A broadcast row keeps the record complete exactly when no committed row lies between the cursor
      and it: the safety pass does not help, because the cursor has moved past. */
  lemma BroadcastCompleteIff(log: seq<Row>, c: Client, after: nat, j: nat)
    requires Increasing(log) && after <= c.cursor && c.emitted == Between(log, after, c.cursor)
    requires j < |log| && c.cursor < log[j].id
    ensures Received(c, log, Heard(j)).emitted == Between(log, after, log[j].id)
       <==> forall i :: 0 <= i < j ==> log[i].id <= c.cursor
  {
    AboveIsSuffix(log, c.cursor);
    var reach := Reach(log, c.cursor);
    if forall i :: 0 <= i < j ==> log[i].id <= c.cursor {
      BetweenNext(log, after, c.cursor, j);
    } else {
      BetweenNext(log, after, c.cursor, reach);
      BetweenGrows(log, after, log[reach].id, log[j].id, j);
    }
  }

  lemma {:induction false} BetweenGrows(log: seq<Row>, low: nat, high: nat, higher: nat, j: nat)
    requires Increasing(log) && low <= high < higher && j < |log| && log[j].id == higher
    ensures |Between(log, low, high)| < |Between(log, low, higher)|
  {
    var n := |log| - 1;
    if j < n {
      BetweenGrows(log[..n], low, high, higher, j);
    } else {
      BetweenNoShorter(log[..n], low, high, higher);
    }
  }

  lemma {:induction false} BetweenNoShorter(log: seq<Row>, low: nat, high: nat, higher: nat)
    requires high <= higher
    ensures |Between(log, low, high)| <= |Between(log, low, higher)|
  {
    if log != [] {
      BetweenNoShorter(log[..|log| - 1], low, high, higher);
    }
  }

  /** A row the cursor has passed without sending it is never sent. */
  lemma {:induction false} PassedRowsNeverComeBack(y: System, after: nat, row: Row, events: seq<Event>)
    requires Ordered(y, after) && PossibleRun(y, events)
    requires row.id <= y.client.cursor && row !in y.client.emitted
    ensures Ordered(Play(y, events), after)
    ensures y.client.cursor <= Play(y, events).client.cursor && row !in Play(y, events).client.emitted
  {
    hide Ordered, Possible, Next;
    if events != [] {
      var n := |events| - 1;
      PrefixIsPossible(y, events, n);
      PassedRowsNeverComeBack(y, after, row, events[..n]);
      NextKeepsOrdered(Play(y, events[..n]), events[n], after);
      StepSendsAboveCursor(Play(y, events[..n]), events[n], row);
    }
  }

  lemma StepSendsAboveCursor(y: System, event: Event, row: Row)
    requires row.id <= y.client.cursor && row !in y.client.emitted
    ensures y.client.cursor <= Next(y, event).client.cursor && row !in Next(y, event).client.emitted
  {
    hide PageOf;
    if event.PageRead? {
      PageSendsAboveCursor(y.client, PageOf(y.feed.log, y.client.cursor), row);
    }
  }

  lemma {:induction false} PageSendsAboveCursor(c: Client, rows: seq<Row>, row: Row)
    requires row.id <= c.cursor && row !in c.emitted
    ensures c.cursor <= SentAll(c, rows).cursor && row !in SentAll(c, rows).emitted
  {
    if rows != [] {
      PageSendsAboveCursor(c, rows[..|rows| - 1], row);
    }
  }

  /** Catch up, commit two rows, lose the first notification, deliver and take the second. */
  function LossyEvents(): seq<Event> {
    [PageRead, Committed(Row(1, 0)), Committed(Row(2, 0)), LostSilently(1), Delivered, Taken]
  }

  function Fresh(): System {
    System(Feed([], [], 0), Client(0, [], CatchingUp))
  }

  /** One silently lost notification, followed by a delivered one: the first row is skipped, and no
      continuation of the run ever sends it. */
  lemma SilentLossSkipsForGood(later: seq<Event>)
    requires PossibleRun(Play(Fresh(), LossyEvents()), later)
    ensures Start(Fresh(), 0) && PossibleRun(Fresh(), LossyEvents())
    ensures var end := Play(Fresh(), LossyEvents());
            && Row(1, 0) in end.feed.log && end.client.emitted == [Row(2, 0)]
            && Row(1, 0) !in Play(end, later).client.emitted
  {
    LossyRun();
    var end := Play(Fresh(), LossyEvents());
    assert Ordered(end, 0);
    PassedRowsNeverComeBack(end, 0, Row(1, 0), later);
  }

  lemma PlayOn(y: System, events: seq<Event>, k: nat)
    requires k < |events|
    ensures Play(y, events[..k + 1]) == Next(Play(y, events[..k]), events[k])
  {
    assert events[..k + 1][..k] == events[..k];
  }

  /** The six states the lossy events lead through. */
  function LossyState(k: nat): System {
    var two := [Row(1, 0), Row(2, 0)];
    match k
    case 0 => Fresh()
    case 1 => System(Feed([], [], 0), Client(0, [], Waiting))
    case 2 => System(Feed([Row(1, 0)], [], 0), Client(0, [], Waiting))
    case 3 => System(Feed(two, [], 0), Client(0, [], Waiting))
    case 4 => System(Feed(two, [], 1), Client(0, [], Waiting))
    case 5 => System(Feed(two, [Heard(1)], 2), Client(0, [], Waiting))
    case _ => System(Feed(two, [], 2), Client(2, [Row(2, 0)], Waiting))
  }

  lemma LossyStep(k: nat)
    requires k < 6
    ensures Possible(LossyState(k), LossyEvents()[k]) && Next(LossyState(k), LossyEvents()[k]) == LossyState(k + 1)
  {
    match k
    case 0 =>
    case 5 => assert [Heard(1)][1..] == [];
    case _ =>
  }

  lemma {:induction false} LossyPlay(k: nat)
    requires k <= 6
    ensures Play(Fresh(), LossyEvents()[..k]) == LossyState(k)
  {
    hide Next, Fresh, LossyState;
    if k == 0 {
      LossyStart();
    } else {
      LossyPlay(k - 1);
      LossyStep(k - 1);
      PlayOn(Fresh(), LossyEvents(), k - 1);
    }
  }

  lemma LossyStart()
    ensures LossyState(0) == Fresh()
  {}

  lemma LossyRun()
    ensures PossibleRun(Fresh(), LossyEvents())
    ensures var end := Play(Fresh(), LossyEvents());
            end.feed.log == [Row(1, 0), Row(2, 0)] && end.client == Client(2, [Row(2, 0)], Waiting)
  {
    hide Next, Play, Possible;
    forall k: nat | k < 6 ensures Possible(Play(Fresh(), LossyEvents()[..k]), LossyEvents()[k]) {
      LossyPlay(k);
      LossyStep(k);
    }
    LossyPlay(6);
    assert LossyEvents()[..6] == LossyEvents();
  }

  // ---- Which runs leave a complete record ---------------------------------------------------------------------

  /** A broadcast row is taken while an older committed row above the cursor has not been sent. */
  ghost predicate Jumps(y: System, event: Event) {
    var f, c := y.feed, y.client;
    && event == Taken && f.queue != [] && f.queue[0].Heard? && f.queue[0].index < |f.log|
    && exists i :: 0 <= i < f.queue[0].index && c.cursor < f.log[i].id < f.log[f.queue[0].index].id
  }

  /** The record is everything committed between the starting cursor and the present one. */
  ghost predicate Whole(y: System, after: nat) {
    y.client.emitted == Between(y.feed.log, after, y.client.cursor)
  }

  ghost predicate Missing(y: System, after: nat, row: Row) {
    row in y.feed.log && after < row.id <= y.client.cursor && row !in y.client.emitted
  }

  lemma {:induction false} BetweenMembers(log: seq<Row>, low: nat, high: nat)
    requires Increasing(log)
    ensures Increasing(Between(log, low, high))
    ensures forall row :: row in Between(log, low, high) <==> row in log && low < row.id <= high
  {
    if log != [] {
      var n := |log| - 1;
      PrefixIncreases(log, n);
      BetweenMembers(log[..n], low, high);
      assert log == log[..n] + [log[n]];
      BetweenIsBelow(log, n, low, high);
    }
  }

  lemma BetweenIsBelow(log: seq<Row>, n: nat, low: nat, high: nat)
    requires Increasing(log) && n < |log|
    requires forall row :: row in Between(log[..n], low, high) ==> row in log[..n]
    ensures forall row :: row in Between(log[..n], low, high) ==> row.id < log[n].id
  {}

  ghost predicate SameMembers(a: seq<Row>, b: seq<Row>) {
    forall row :: row in a <==> row in b
  }

  /** Of two increasing records with the same rows, one is the other. */
  lemma {:induction false} SameRows(a: seq<Row>, b: seq<Row>)
    requires Increasing(a) && Increasing(b) && SameMembers(a, b)
    ensures a == b
    decreases |a|
  {
    hide Increasing, SameMembers;
    BothOrNeither(a, b);
    if a != [] {
      var m, n := |a| - 1, |b| - 1;
      LargestLast(a, b);
      PrefixIncreases(a, m);
      PrefixIncreases(b, n);
      SameRows(a[..m], b[..n]);
      assert a == a[..m] + [a[m]] && b == b[..n] + [b[n]];
    }
  }

  lemma BothOrNeither(a: seq<Row>, b: seq<Row>)
    requires SameMembers(a, b)
    ensures a == [] <==> b == []
  {
    assert a != [] ==> a[0] in b;
    assert b != [] ==> b[0] in a;
  }

  lemma LastIsTop(a: seq<Row>)
    requires Increasing(a) && a != []
    ensures var m := |a| - 1;
            && a[m] in a
            && (forall row :: row in a ==> row == a[m] || row.id < a[m].id)
            && (forall row :: row in a[..m] <==> row in a && row != a[m])
  {
    var m := |a| - 1;
    assert a == a[..m] + [a[m]];
  }

  lemma LargestLast(a: seq<Row>, b: seq<Row>)
    requires Increasing(a) && Increasing(b) && a != [] && b != [] && SameMembers(a, b)
    ensures a[|a| - 1] == b[|b| - 1] && SameMembers(a[..|a| - 1], b[..|b| - 1])
  {
    hide Increasing;
    LastIsTop(a);
    LastIsTop(b);
    var top, other := a[|a| - 1], b[|b| - 1];
    assert top in b && other in a;
  }

  /** An ordered record is whole exactly when no row is missing. */
  lemma WholeIff(y: System, after: nat)
    requires Ordered(y, after)
    ensures Whole(y, after) <==> forall row :: !Missing(y, after, row)
  {
    var rows := Between(y.feed.log, after, y.client.cursor);
    BetweenMembers(y.feed.log, after, y.client.cursor);
    if forall row :: !Missing(y, after, row) {
      assert SameMembers(y.client.emitted, rows) by {
        forall row ensures row in y.client.emitted <==> row in rows {
          assert !Missing(y, after, row);
        }
      }
      SameRows(y.client.emitted, rows);
    }
  }

  /** The cursor is where the stream began, or at a committed row. */
  ghost predicate Anchored(y: System, after: nat) {
    y.client.cursor == after || exists k :: 0 <= k < |y.feed.log| && y.feed.log[k].id == y.client.cursor
  }

  lemma {:induction false} SentAllReaches(c: Client, rows: seq<Row>)
    ensures SentAll(c, rows).cursor == c.cursor || exists k :: 0 <= k < |rows| && rows[k].id == SentAll(c, rows).cursor
  {
    if rows != [] {
      SentAllReaches(c, rows[..|rows| - 1]);
    }
  }

  lemma NextKeepsAnchored(y: System, event: Event, after: nat)
    requires Ordered(y, after) && Anchored(y, after) && Possible(y, event)
    ensures Anchored(Next(y, event), after)
  {
    hide PageOf, Ordered;
    var f, c := y.feed, y.client;
    assert Increasing(f.log) by { LogIncreases(y, after); }
    match event
    case PageRead =>
      var rows := PageOf(f.log, c.cursor);
      PageIsReal(f.log, c.cursor);
      SentAllReaches(c, rows);
      var next := SentAll(c, rows).cursor;
      if next != c.cursor {
        var k :| 0 <= k < |rows| && rows[k].id == next;
        assert rows[k] in f.log;
      }
    case Committed(row) =>
      if c.cursor != after {
        var k :| 0 <= k < |f.log| && f.log[k].id == c.cursor;
        assert (f.log + [row])[k].id == c.cursor;
      }
    case _ =>
  }

  lemma LogIncreases(y: System, after: nat)
    requires Ordered(y, after)
    ensures Increasing(y.feed.log)
  {}

  /** A row is missing from then on after a jump. */
  lemma JumpLeavesGap(y: System, event: Event, after: nat)
    requires Ordered(y, after) && Possible(y, event) && Jumps(y, event)
    ensures exists row :: Missing(Next(y, event), after, row)
  {
    var f, c := y.feed, y.client;
    var i :| 0 <= i < f.queue[0].index && c.cursor < f.log[i].id < f.log[f.queue[0].index].id;
    assert Missing(Next(y, event), after, f.log[i]);
  }

  lemma GapStays(y: System, event: Event, after: nat, row: Row)
    requires Ordered(y, after) && Possible(y, event) && Missing(y, after, row)
    ensures Missing(Next(y, event), after, row)
  {
    hide Ordered, PageOf, SentAll;
    StepSendsAboveCursor(y, event, row);
  }

  /** Without a jump a whole record stays whole. */
  lemma StepKeepsWhole(y: System, event: Event, after: nat)
    requires Ordered(y, after) && Anchored(y, after) && Possible(y, event) && Whole(y, after) && !Jumps(y, event)
    ensures Whole(Next(y, event), after)
  {
    hide PageOf, Above, Between, SentAll;
    var f, c := y.feed, y.client;
    match event
    case PageRead =>
      PageIsRun(f.log, c.cursor);
      var n := Reach(f.log, c.cursor);
      SentRunIsComplete(f.log, after, c, n, n + |PageOf(f.log, c.cursor)|);
    case Taken =>
      if f.queue[0].Heard? && f.queue[0].index < |f.log| && c.cursor < f.log[f.queue[0].index].id {
        BetweenNext(f.log, after, c.cursor, f.queue[0].index);
      }
    case Committed(row) => CommitKeepsWhole(y, row, after);
    case _ =>
  }

  lemma CommitKeepsWhole(y: System, row: Row, after: nat)
    requires Anchored(y, after) && Whole(y, after) && Increasing(y.feed.log + [row])
    ensures Whole(Next(y, Committed(row)), after)
  {
    var log := y.feed.log + [row];
    assert log[..|y.feed.log|] == y.feed.log && log[|log| - 1] == row;
    if y.client.cursor != after {
      var k :| 0 <= k < |y.feed.log| && y.feed.log[k].id == y.client.cursor;
      assert log[k].id < log[|log| - 1].id;
    }
  }

  ghost predicate NeverJumps(y: System, events: seq<Event>) {
    forall k :: 0 <= k < |events| ==> !Jumps(Play(y, events[..k]), events[k])
  }

  lemma NeverJumpsOn(y: System, events: seq<Event>)
    ensures events == [] ==> NeverJumps(y, events)
    ensures events != [] ==>
      var n := |events| - 1;
      NeverJumps(y, events) <==> NeverJumps(y, events[..n]) && !Jumps(Play(y, events[..n]), events[n])
  {
    hide Jumps, Play;
    if events != [] {
      var n := |events| - 1;
      assert forall k :: 0 <= k < n ==> events[..n][..k] == events[..k] && events[..n][k] == events[k];
    }
  }

  /** Over any run, whatever was lost, repeated or reordered: the record is exactly what was committed
      between the starting cursor and the present one, if and only if no broadcast row was ever taken
      past an older row not yet sent. */
  lemma {:induction false} WholeRecordIff(y: System, after: nat, events: seq<Event>)
    requires Start(y, after) && PossibleRun(y, events)
    ensures Ordered(Play(y, events), after) && Anchored(Play(y, events), after)
    ensures Whole(Play(y, events), after) <==> NeverJumps(y, events)
  {
    hide Ordered, Anchored, Whole, Jumps, Possible, Next, NeverJumps;
    NeverJumpsOn(y, events);
    if events == [] {
      StartIsWhole(y, after);
    } else {
      var n := |events| - 1;
      PrefixIsPossible(y, events, n);
      WholeRecordIff(y, after, events[..n]);
      var before := Play(y, events[..n]);
      NextKeepsOrdered(before, events[n], after);
      NextKeepsAnchored(before, events[n], after);
      StepWholeIff(before, events[n], after);
    }
  }

  lemma StartIsWhole(y: System, after: nat)
    requires Start(y, after)
    ensures Ordered(y, after) && Anchored(y, after) && Whole(y, after)
  {
    NothingBetween(y.feed.log, after);
  }

  lemma StepWholeIff(y: System, event: Event, after: nat)
    requires Ordered(y, after) && Anchored(y, after) && Possible(y, event)
    ensures Whole(Next(y, event), after) <==> Whole(y, after) && !Jumps(y, event)
  {
    hide Ordered, Anchored, Whole, Jumps, Missing, Possible, Next;
    var next := Next(y, event);
    NextKeepsOrdered(y, event, after);
    WholeIff(y, after);
    WholeIff(next, after);
    if !Whole(y, after) {
      var row :| Missing(y, after, row);
      GapStays(y, event, after, row);
    } else if Jumps(y, event) {
      JumpLeavesGap(y, event, after);
    } else {
      StepKeepsWhole(y, event, after);
    }
  }
}
