/** Row locks: every transaction takes them in one order, except the closing pass, which never
    waits, and the purge, which deletes instance rows as its query lists them. So transactions wait
    for each other in a circle only if all of them are purges; with at most one purge at a time,
    one transaction can always go on. */
module Locks {
  type Process = nat

  /** Lockable rows. Accounts are numbered in the order of their ids. */
  datatype Lock =
    | KeyRow(account: nat, key: nat)
    | TemplateRow(template: nat)
    | InstanceRow(market: nat)
    | AccountRow(account: nat)

  // ---- The order ------------------------------------------------------------------------------------

  function Rank(l: Lock): nat {
    match l
    case KeyRow(_, _) => 0
    case TemplateRow(_) => 0
    case InstanceRow(_) => 1
    case AccountRow(_) => 2
  }

  /** Idempotency row or template first, then one instance, then accounts by id. */
  predicate Before(a: Lock, b: Lock) {
    Rank(a) < Rank(b) || (a.AccountRow? && b.AccountRow? && a.account < b.account)
  }

  lemma BeforeIsOrder(a: Lock, b: Lock, c: Lock)
    ensures !Before(a, a)
    ensures Before(a, b) && Before(b, c) ==> Before(a, c)
  {}

  ghost predicate Ascending(locks: seq<Lock>) {
    forall i, j :: 0 <= i < j < |locks| ==> Before(locks[i], locks[j])
  }

  // ---- Modes ------------------------------------------------------------------------------------------

  /** The database's row lock modes that are used, weakest first. */
  datatype Mode = KeyShare | NoKeyUpdate | ForUpdate

  /** Which modes conflict, between two transactions. */
  predicate Conflicts(a: Mode, b: Mode) {
    a == ForUpdate || b == ForUpdate || (a == NoKeyUpdate && b == NoKeyUpdate)
  }

  /** Balances change without changing keys; instances, templates and replies are locked entirely. */
  function ModeOf(l: Lock): Mode {
    if l.AccountRow? then NoKeyUpdate else ForUpdate
  }

  // ---- What each kind of transaction locks ------------------------------------------------------------

  datatype Kind =
    | Trade(account: nat, key: nat, market: nat, reserve: nat)
    | Settle(market: nat, accounts: set<nat>)
    | Create(template: nat, reserve: nat, treasury: nat)
    | Grant(account: nat, treasury: nat)
    | Update(market: nat)
    | Purge(markets: seq<nat>)
    | Close

  /** `ORDER BY id`. */
  ghost function Ordered(accounts: set<nat>): (locks: seq<Lock>)
    ensures forall l :: l in locks <==> l.AccountRow? && l.account in accounts
    ensures Ascending(locks)
    decreases |accounts|
  {
    if accounts == {} then []
    else
      HasLargest(accounts);
      var x :| x in accounts && forall y :: y in accounts ==> y <= x;
      Ordered(accounts - {x}) + [AccountRow(x)]
  }

  lemma {:induction false} HasLargest(s: set<nat>)
    requires s != {}
    ensures exists x :: x in s && forall y :: y in s ==> y <= x
    decreases |s|
  {
    var x :| x in s;
    if s != {x} {
      HasLargest(s - {x});
      var z :| z in s - {x} && forall y :: y in s - {x} ==> y <= z;
      var top := if x < z then z else x;
      forall y | y in s ensures y <= top {
        assert y == x || y in s - {x};
      }
      assert top in s;
    }
  }

  function InstanceRows(markets: seq<nat>): seq<Lock> {
    seq(|markets|, i requires 0 <= i < |markets| => InstanceRow(markets[i]))
  }

  lemma InstanceRowsOf(markets: seq<nat>)
    ensures forall l :: l in InstanceRows(markets) <==> l.InstanceRow? && l.market in markets
  {
    forall l: Lock | l.InstanceRow? && l.market in markets ensures l in InstanceRows(markets) {
      var i :| 0 <= i < |markets| && markets[i] == l.market;
      assert InstanceRows(markets)[i] == l;
    }
  }

  /** The locks a transaction waits for, in the order of its statements. The closing pass takes what
      is free and waits for nothing. */
  ghost function Plan(kind: Kind): (locks: seq<Lock>)
    ensures !kind.Purge? ==> Ascending(locks)
    ensures forall l :: l in locks <==>
      match kind
      case Trade(account, key, market, reserve) =>
        l == KeyRow(account, key) || l == InstanceRow(market) || l == AccountRow(account) || l == AccountRow(reserve)
      case Settle(market, accounts) => l == InstanceRow(market) || (l.AccountRow? && l.account in accounts)
      case Create(template, reserve, treasury) =>
        l == TemplateRow(template) || l == AccountRow(reserve) || l == AccountRow(treasury)
      case Grant(account, treasury) => l == AccountRow(account) || l == AccountRow(treasury)
      case Update(market) => l == InstanceRow(market)
      case Purge(markets) => l.InstanceRow? && l.market in markets
      case Close => false
  {
    match kind
    case Trade(account, key, market, reserve) =>
      [KeyRow(account, key), InstanceRow(market)] + Ordered({account, reserve})
    case Settle(market, accounts) => [InstanceRow(market)] + Ordered(accounts)
    case Create(template, reserve, treasury) => [TemplateRow(template)] + Ordered({reserve, treasury})
    case Grant(account, treasury) => Ordered({account, treasury})
    case Update(market) => [InstanceRow(market)]
    case Purge(markets) =>
      InstanceRowsOf(markets);
      InstanceRows(markets)
    case Close => []
  }

  // ---- The system ---------------------------------------------------------------------------------------

  /** `shares` are the account rows a transaction's inserted rows refer to: foreign keys lock them. */
  datatype Transaction = Transaction(kind: Kind, holds: set<Lock>, shares: set<Lock>, wants: seq<Lock>)

  type System = map<Process, Transaction>

  datatype Event =
    | Begin(process: Process, kind: Kind)
    | Acquire(process: Process)
    | Reference(process: Process, account: nat)
    | Sweep(process: Process, instances: set<Lock>)
    | End(process: Process)

  /** `q` has the row in a mode that conflicts with `mode`. */
  predicate Blocks(s: System, q: Process, l: Lock, mode: Mode)
    requires q in s
  {
    (l in s[q].holds && Conflicts(mode, ModeOf(l))) || (l in s[q].shares && Conflicts(mode, KeyShare))
  }

  predicate Free(s: System, p: Process, l: Lock, mode: Mode) {
    forall q :: q in s && q != p ==> !Blocks(s, q, l, mode)
  }

  predicate CanAcquire(s: System, p: Process) {
    p in s && s[p].wants != [] && Free(s, p, s[p].wants[0], ModeOf(s[p].wants[0]))
  }

  /** A purge's query lists each instance once. */
  predicate ListsOnce(kind: Kind) {
    kind.Purge? ==> forall i, j :: 0 <= i < j < |kind.markets| ==> kind.markets[i] != kind.markets[j]
  }

  /** Commit once everything is locked, or roll back at any time. */
  predicate Possible(s: System, event: Event) {
    match event
    case Begin(p, kind) => p !in s && ListsOnce(kind)
    case Acquire(p) => CanAcquire(s, p)
    case Reference(p, account) => p in s && Free(s, p, AccountRow(account), KeyShare)
    case Sweep(p, instances) =>
      p in s && s[p].kind.Close? && forall l :: l in instances ==> l.InstanceRow? && Free(s, p, l, ForUpdate)
    case End(p) => p in s
  }

  ghost function Next(s: System, event: Event): System
    requires Possible(s, event)
  {
    match event
    case Begin(p, kind) => s[p := Transaction(kind, {}, {}, Plan(kind))]
    case Acquire(p) => s[p := s[p].(holds := s[p].holds + {s[p].wants[0]}, wants := s[p].wants[1..])]
    case Reference(p, account) => s[p := s[p].(shares := s[p].shares + {AccountRow(account)})]
    case Sweep(p, instances) => s[p := s[p].(holds := s[p].holds + instances)]
    case End(p) => s - {p}
  }

  ghost predicate Run(states: seq<System>, events: seq<Event>) {
    && |states| == |events| + 1 && states[0] == map[]
    && forall k :: 0 <= k < |events| ==> Possible(states[k], events[k]) && states[k + 1] == Next(states[k], events[k])
  }

  /** What a transaction holds comes before everything it still waits for. */
  ghost predicate InOrder(t: Transaction) {
    && Ascending(t.wants)
    && (forall l, j :: l in t.holds && 0 <= j < |t.wants| ==> Before(l, t.wants[j]))
  }

  /** A purge has and wants instance rows only, each once. */
  ghost predicate OnlyInstances(t: Transaction) {
    && (forall l :: l in t.holds ==> l.InstanceRow?)
    && (forall j :: 0 <= j < |t.wants| ==> t.wants[j].InstanceRow? && t.wants[j] !in t.holds)
    && (forall i, j :: 0 <= i < j < |t.wants| ==> t.wants[i] != t.wants[j])
  }

  ghost predicate Orderly(s: System) {
    && (forall p :: p in s ==> if s[p].kind.Purge? then OnlyInstances(s[p]) else InOrder(s[p]))
    && (forall p :: p in s && s[p].kind.Close? ==> s[p].wants == [])
    && (forall p, l :: p in s && l in s[p].shares ==> l.AccountRow?)
    && (forall p, q :: p in s && q in s && p != q ==> s[p].holds !! s[q].holds)
  }

  lemma AcquiredInOrder(t: Transaction)
    requires t.wants != [] && (if t.kind.Purge? then OnlyInstances(t) else InOrder(t))
    ensures var next := t.(holds := t.holds + {t.wants[0]}, wants := t.wants[1..]);
            if t.kind.Purge? then OnlyInstances(next) else InOrder(next)
  {
    hide Before;
    forall j | 0 <= j < |t.wants[1..]| ensures t.wants[1..][j] == t.wants[j + 1] {
    }
  }

  lemma AcquireKeepsOrderly(s: System, p: Process)
    requires Orderly(s) && CanAcquire(s, p)
    ensures Orderly(Next(s, Acquire(p)))
  {
    hide OnlyInstances, InOrder;
    AcquiredInOrder(s[p]);
    var l := s[p].wants[0];
    forall q | q in s && q != p ensures l !in s[q].holds {
      assert !Blocks(s, q, l, ModeOf(l));
    }
  }

  lemma NextKeepsOrderly(s: System, event: Event)
    requires Orderly(s) && Possible(s, event)
    ensures Orderly(Next(s, event))
  {
    match event
    case Acquire(p) => AcquireKeepsOrderly(s, p);
    case Begin(_, kind) =>
      hide Before;
    case Sweep(p, instances) =>
      hide Before, Ascending;
      forall q, l | q in s && q != p && l in instances ensures l !in s[q].holds {
        assert !Blocks(s, q, l, ForUpdate);
      }
    case _ =>
      hide OnlyInstances, InOrder;
  }

  lemma {:induction false} ReachableIsOrderly(states: seq<System>, events: seq<Event>, k: nat)
    requires Run(states, events) && k < |states|
    ensures Orderly(states[k])
  {
    hide Possible, Next;
    if k == 0 {
      assert Orderly(map[]);
    } else {
      ReachableIsOrderly(states, events, k - 1);
      assert Possible(states[k - 1], events[k - 1]);
      NextKeepsOrderly(states[k - 1], events[k - 1]);
    }
  }

  // ---- No circular wait -----------------------------------------------------------------------------------

  predicate WaitsFor(s: System, p: Process, q: Process) {
    p in s && q in s && p != q && s[p].wants != [] && Blocks(s, q, s[p].wants[0], ModeOf(s[p].wants[0]))
  }

  /** Each process of the chain waits for the next. */
  ghost predicate Chain(s: System, c: seq<Process>) {
    forall i :: 0 <= i < |c| - 1 ==> WaitsFor(s, c[i], c[i + 1])
  }

  lemma WaitsHigher(s: System, p: Process, q: Process)
    requires Orderly(s) && WaitsFor(s, p, q) && s[q].wants != [] && !s[q].kind.Purge?
    ensures Before(s[p].wants[0], s[q].wants[0])
  {}

  lemma WaitsAt(s: System, c: seq<Process>, i: nat)
    requires Chain(s, c) && i < |c| - 1
    ensures WaitsFor(s, c[i], c[i + 1])
  {}

  lemma ChainTail(s: System, c: seq<Process>)
    requires Chain(s, c) && c != []
    ensures Chain(s, c[1..])
  {
    hide WaitsFor;
    forall i | 0 <= i < |c[1..]| - 1 ensures WaitsFor(s, c[1..][i], c[1..][i + 1]) {
      assert WaitsFor(s, c[i + 1], c[i + 1 + 1]);
    }
  }

  ghost predicate NoPurges(s: System, c: seq<Process>) {
    forall i :: 0 <= i < |c| ==> c[i] in s && s[c[i]].wants != [] && !s[c[i]].kind.Purge?
  }

  lemma {:induction false} ChainClimbs(s: System, c: seq<Process>)
    requires Orderly(s) && Chain(s, c) && |c| >= 2 && NoPurges(s, c)
    ensures Before(s[c[0]].wants[0], s[c[|c| - 1]].wants[0])
  {
    hide Before, Orderly, WaitsFor, Chain;
    WaitsAt(s, c, 0);
    WaitsHigher(s, c[0], c[1]);
    if |c| > 2 {
      ChainTail(s, c);
      ChainClimbs(s, c[1..]);
      BeforeIsOrder(s[c[0]].wants[0], s[c[1]].wants[0], s[c[|c| - 1]].wants[0]);
    }
  }

  /** Whoever waits for an account waits only for transactions that wait for accounts. */
  lemma {:induction false} AccountsOnly(s: System, c: seq<Process>)
    requires Orderly(s) && Chain(s, c) && c != [] && c[0] in s && s[c[0]].wants != [] && s[c[0]].wants[0].AccountRow?
    requires forall i :: 0 <= i < |c| ==> c[i] in s && s[c[i]].wants != []
    ensures forall i :: 0 < i < |c| ==> !s[c[i]].kind.Purge?
  {
    hide Before, Orderly, WaitsFor, Chain;
    if |c| > 1 {
      WaitsAt(s, c, 0);
      HoldsAccount(s, c[0], c[1]);
      ChainTail(s, c);
      AccountsOnly(s, c[1..]);
      assert forall i :: 1 < i < |c| ==> c[i] == c[1..][i - 1];
    }
  }

  lemma HoldsAccount(s: System, p: Process, q: Process)
    requires Orderly(s) && WaitsFor(s, p, q) && s[p].wants[0].AccountRow? && s[q].wants != []
    ensures !s[q].kind.Purge? && s[q].wants[0].AccountRow?
  {}

  /** A transaction that keeps the order and holds an instance row waits for an account. */
  lemma AfterInstance(s: System, p: Process, q: Process)
    requires Orderly(s) && WaitsFor(s, p, q) && s[p].kind.Purge? && !s[q].kind.Purge? && s[q].wants != []
    ensures s[q].wants[0].AccountRow?
  {}

  /** The first member after which a purge is followed by another kind of transaction. */
  lemma {:induction false} LeavesPurges(s: System, c: seq<Process>) returns (i: nat)
    requires |c| >= 2 && (forall k :: 0 <= k < |c| ==> c[k] in s)
    requires s[c[0]].kind.Purge? && exists k :: 0 <= k < |c| && !s[c[k]].kind.Purge?
    ensures i < |c| - 1 && s[c[i]].kind.Purge? && !s[c[i + 1]].kind.Purge?
  {
    if !s[c[1]].kind.Purge? {
      i := 0;
    } else {
      var k :| 0 <= k < |c| && !s[c[k]].kind.Purge?;
      assert c[1..][k - 1] == c[k];
      i := LeavesPurges(s, c[1..]);
      i := i + 1;
    }
  }

  /** The members of a circle, starting from one of them. */
  function Turned(circle: seq<Process>, k: nat): seq<Process>
    requires k < |circle|
  {
    circle[k..] + circle[1..k + 1]
  }

  lemma TurnedIsCircle(s: System, circle: seq<Process>, k: nat)
    requires Chain(s, circle) && |circle| >= 2 && circle[0] == circle[|circle| - 1] && k < |circle| - 1
    ensures Chain(s, Turned(circle, k)) && |Turned(circle, k)| == |circle|
    ensures Turned(circle, k)[0] == Turned(circle, k)[|circle| - 1] == circle[k]
    ensures forall p :: p in circle ==> p in Turned(circle, k)
  {
    hide WaitsFor;
    var n, t := |circle| - 1, Turned(circle, k);
    forall i | 0 <= i < |t| - 1 ensures WaitsFor(s, t[i], t[i + 1]) {
      if k + i < n {
        assert WaitsFor(s, circle[k + i], circle[k + i + 1]);
      } else {
        var j := k + i - n;
        assert t[i] == circle[j] && t[i + 1] == circle[j + 1];
        assert WaitsFor(s, circle[j], circle[j + 1]);
      }
    }
    forall p | p in circle ensures p in t {
      var i :| 0 <= i < |circle| && circle[i] == p;
      assert i >= k ==> t[i - k] == p;
      assert 0 < i < k ==> t[n - k + i] == p;
    }
  }

  lemma AllWait(s: System, circle: seq<Process>)
    requires Chain(s, circle) && |circle| >= 2 && circle[0] == circle[|circle| - 1]
    ensures forall i :: 0 <= i < |circle| ==> circle[i] in s && s[circle[i]].wants != []
  {
    forall i | 0 <= i < |circle| ensures circle[i] in s && s[circle[i]].wants != [] {
      WaitsAt(s, circle, if i < |circle| - 1 then i else 0);
    }
  }

  /** In a circle that begins with a purge there are only purges. */
  lemma PurgesOnly(s: System, c: seq<Process>)
    requires Orderly(s) && Chain(s, c) && |c| >= 2 && c[0] == c[|c| - 1] && c[0] in s && s[c[0]].kind.Purge?
    ensures forall i :: 0 <= i < |c| ==> c[i] in s && s[c[i]].kind.Purge?
  {
    hide Before, Orderly, WaitsFor, Chain;
    AllWait(s, c);
    if exists k :: 0 <= k < |c| && !s[c[k]].kind.Purge? {
      var i := LeavesPurges(s, c);
      WaitsAt(s, c, i);
      AfterInstance(s, c[i], c[i + 1]);
      SuffixChain(s, c, i + 1);
      AccountsOnly(s, c[i + 1..]);
    }
  }

  lemma {:induction false} SuffixChain(s: System, c: seq<Process>, k: nat)
    requires Chain(s, c) && k <= |c|
    ensures Chain(s, c[k..])
  {
    hide Chain;
    if k == 0 {
      assert c[0..] == c;
    } else {
      ChainTail(s, c);
      SuffixChain(s, c[1..], k - 1);
      assert c[1..][k - 1..] == c[k..];
    }
  }

  /** In every reachable configuration, transactions that wait for each other in a circle are all
      purges, and at least two. */
  lemma NoCircularWait(states: seq<System>, events: seq<Event>, k: nat, circle: seq<Process>)
    requires Run(states, events) && k < |states|
    requires |circle| >= 2 && circle[0] == circle[|circle| - 1] && Chain(states[k], circle)
    ensures forall i :: 0 <= i < |circle| ==> circle[i] in states[k] && states[k][circle[i]].kind.Purge?
    ensures circle[0] != circle[1]
  {
    hide Before, Orderly, Run, Chain;
    var s := states[k];
    ReachableIsOrderly(states, events, k);
    AllWait(s, circle);
    WaitsAt(s, circle, 0);
    if NoPurges(s, circle) {
      ChainClimbs(s, circle);
      BeforeIsOrder(s[circle[0]].wants[0], s[circle[0]].wants[0], s[circle[0]].wants[0]);
      assert false;
    }
    var j :| 0 <= j < |circle| && s[circle[j]].kind.Purge?;
    var first := if j == |circle| - 1 then 0 else j;
    TurnedIsCircle(s, circle, first);
    var turned := Turned(circle, first);
    PurgesOnly(s, turned);
    forall i | 0 <= i < |circle| ensures s[circle[i]].kind.Purge? {
      assert circle[i] in turned;
    }
  }

  /** Two purges that list the same instances in different orders can wait for each other. */
  lemma PurgesCanCircle(a: Process, b: Process, x: nat, y: nat) returns (states: seq<System>, events: seq<Event>)
    requires a != b && x != y
    ensures Run(states, events) && |states| == 5
    ensures Chain(states[4], [a, b, a])
  {
    events := [Begin(a, Purge([x, y])), Begin(b, Purge([y, x])), Acquire(a), Acquire(b)];
    TwoRows(x, y);
    TwoRows(y, x);
    var s1 := Next(map[], events[0]);
    var s2 := Next(s1, events[1]);
    var s3 := Next(s2, events[2]);
    var s4 := Next(s3, events[3]);
    states := [map[], s1, s2, s3, s4];
    assert WaitsFor(s4, a, b) && WaitsFor(s4, b, a);
  }

  lemma TwoRows(x: nat, y: nat)
    ensures var rows := Plan(Purge([x, y]));
            |rows| == 2 && rows[0] == rows[..1][0] == InstanceRow(x) && rows[1] == rows[1..][0] == InstanceRow(y)
  {}

  /** A foreign key never waits for a lock on its account, nor blocks one. */
  lemma ReferencesNeverWait(states: seq<System>, events: seq<Event>, k: nat, p: Process, q: Process, account: nat)
    requires Run(states, events) && k < |states| && p in states[k] && q in states[k]
    ensures Possible(states[k], Reference(p, account))
    ensures WaitsFor(states[k], p, q) ==> states[k][p].wants[0] in states[k][q].holds
  {
    hide Run;
    ReachableIsOrderly(states, events, k);
  }

  /** The closing pass never waits. */
  lemma ClosingNeverWaits(states: seq<System>, events: seq<Event>, k: nat, p: Process, q: Process)
    requires Run(states, events) && k < |states| && p in states[k] && states[k][p].kind.Close?
    ensures !WaitsFor(states[k], p, q)
  {
    hide Run;
    ReachableIsOrderly(states, events, k);
  }

  // ---- Progress ---------------------------------------------------------------------------------------------

  function Weight(l: Lock): nat {
    match l
    case AccountRow(a) => 2 + a
    case _ => Rank(l)
  }

  lemma WeightFollowsOrder(a: Lock, b: Lock)
    requires Before(a, b)
    ensures Weight(a) < Weight(b)
  {}

  ghost predicate AllWaiting(s: System, waiting: set<Process>) {
    forall p :: p in waiting ==> p in s && s[p].wants != []
  }

  ghost predicate Heaviest(s: System, waiting: set<Process>, p: Process)
    requires AllWaiting(s, waiting)
  {
    p in waiting && forall q :: q in waiting ==> Weight(s[q].wants[0]) <= Weight(s[p].wants[0])
  }

  lemma {:induction false} HeaviestWait(s: System, waiting: set<Process>)
    requires waiting != {} && AllWaiting(s, waiting)
    ensures exists p :: Heaviest(s, waiting, p)
    decreases |waiting|
  {
    hide Weight;
    var p :| p in waiting;
    if waiting == {p} {
      assert Heaviest(s, waiting, p);
    } else {
      HeaviestWait(s, waiting - {p});
      var r :| Heaviest(s, waiting - {p}, r);
      assert Heaviest(s, waiting, if Weight(s[p].wants[0]) <= Weight(s[r].wants[0]) then r else p);
    }
  }

  ghost predicate OnePurge(s: System) {
    forall p, q :: p in s && q in s && s[p].kind.Purge? && s[q].kind.Purge? ==> p == q
  }

  /** While at most one purge is under way, some transaction has all its locks, or its next lock is
      free. */
  lemma SomeoneProceeds(states: seq<System>, events: seq<Event>, k: nat)
    requires Run(states, events) && k < |states| && states[k] != map[] && OnePurge(states[k])
    ensures exists p :: p in states[k] && (states[k][p].wants == [] || CanAcquire(states[k], p))
  {
    hide Run, Orderly, Weight, CanAcquire;
    var s := states[k];
    ReachableIsOrderly(states, events, k);
    if AllWaiting(s, s.Keys) {
      HeaviestWait(s, s.Keys);
      var p :| Heaviest(s, s.Keys, p);
      if CanAcquire(s, p) {
      } else {
        var q := Holder(s, p);
        HolderProceeds(s, p, q);
      }
    }
  }

  lemma Holder(s: System, p: Process) returns (q: Process)
    requires p in s && s[p].wants != [] && !CanAcquire(s, p)
    requires Orderly(s)
    ensures q in s && q != p && s[p].wants[0] in s[q].holds
  {
    q :| q in s && q != p && Blocks(s, q, s[p].wants[0], ModeOf(s[p].wants[0]));
  }

  /** The holder of the heaviest wanted row is the purge, and what it waits for is free. */
  lemma HolderProceeds(s: System, p: Process, q: Process)
    requires Orderly(s) && OnePurge(s) && AllWaiting(s, s.Keys) && Heaviest(s, s.Keys, p)
    requires q in s && q != p && s[p].wants[0] in s[q].holds
    ensures CanAcquire(s, q)
  {
    hide Before, Ascending, OnlyInstances, InOrder;
    if !s[q].kind.Purge? {
      HolderIsLighter(s, s[p].wants[0], q);
    }
    PurgeHasInstances(s[q], s[p].wants[0]);
    forall r | r in s && r != q ensures !Blocks(s, r, s[q].wants[0], ForUpdate) {
      SharesAreAccounts(s, r, s[q].wants[0]);
      if s[q].wants[0] in s[r].holds && !s[r].kind.Purge? {
        HolderIsLighter(s, s[q].wants[0], r);
      }
    }
  }

  lemma SharesAreAccounts(s: System, p: Process, l: Lock)
    requires Orderly(s) && p in s && !l.AccountRow?
    ensures l !in s[p].shares
  {}

  lemma PurgeHasInstances(t: Transaction, l: Lock)
    requires OnlyInstances(t) && t.wants != [] && l in t.holds
    ensures l.InstanceRow? && t.wants[0].InstanceRow? && t.wants[0] !in t.holds
  {}

  lemma HolderIsLighter(s: System, l: Lock, q: Process)
    requires Orderly(s) && q in s && s[q].wants != [] && !s[q].kind.Purge?
    ensures l in s[q].holds ==> Weight(l) < Weight(s[q].wants[0])
  {
    if l in s[q].holds {
      WeightFollowsOrder(l, s[q].wants[0]);
    }
  }
}
