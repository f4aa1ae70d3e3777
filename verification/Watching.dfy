/** The bus watcher: it records polls and arrivals, forgets both before one shared cutoff, and
    answers resolver requests from what it still remembers. */
module Watching {
  import opened Wrappers

  type Route = nat
  type Stop = nat
  type Bus = nat

  datatype Answer = Pending | Yes | No

  /** A resolver request; `mapped` says that its two outcomes could be told apart as yes and no. */
  datatype Request = Request(route: Route, stop: Stop, start: int, end: int, mapped: bool)

  datatype Watch = Watch(
    polls: map<Route, seq<int>>,
    events: map<(Route, Stop), seq<int>>,
    stops: map<Route, set<Stop>>,
    lastSuccess: int)

  /** The watch of a service that has just started. */
  function Started(routes: seq<Route>): Watch {
    Watch(map r | r in routes :: [], map[], map[], 0)
  }

  // ---- Time stamps ----------------------------------------------------------------------------------

  /** The stamps that survive a cutoff. */
  function From(stamps: seq<int>, cutoff: int): (kept: seq<int>)
    ensures |kept| <= |stamps|
  {
    if stamps == [] then []
    else
      var last, rest := stamps[|stamps| - 1], From(stamps[..|stamps| - 1], cutoff);
      if last >= cutoff then rest + [last] else rest
  }

  function Within(stamps: seq<int>, low: int, high: int): (inside: seq<int>)
    ensures |inside| <= |stamps|
  {
    if stamps == [] then []
    else
      var last, rest := stamps[|stamps| - 1], Within(stamps[..|stamps| - 1], low, high);
      if low <= last <= high then rest + [last] else rest
  }

  /** The latest stamp not after `at`. */
  function LatestUpto(stamps: seq<int>, at: int): (r: Option<int>)
    ensures r.Some? ==> r.value in stamps && r.value <= at
    ensures r.None? ==> forall t :: t in stamps ==> at < t
  {
    if stamps == [] then None
    else
      var last, rest := stamps[|stamps| - 1], LatestUpto(stamps[..|stamps| - 1], at);
      assert stamps == stamps[..|stamps| - 1] + [last];
      if last > at || (rest.Some? && rest.value >= last) then rest else Some(last)
  }

  predicate ArrivedWithin(arrivals: seq<int>, start: int, end: int) {
    exists k :: 0 <= k < |arrivals| && start <= arrivals[k] < end
  }

  /** The widest gap between consecutive stamps, the first measured from `before`. */
  function WidestGap(before: int, stamps: seq<int>): int
    requires stamps != []
    decreases |stamps|
  {
    var first := stamps[0] - before;
    if |stamps| == 1 then first
    else
      var rest := WidestGap(stamps[0], stamps[1..]);
      if rest > first then rest else first
  }

  function Lookup<K>(m: map<K, seq<int>>, k: K): seq<int> {
    if k in m then m[k] else []
  }

  // ---- The answer -------------------------------------------------------------------------------------

  /** The answer from the polls and arrivals still remembered. Polls are recorded in order, so that
      sorting them first would change nothing. */
  function Judge(polls: seq<int>, arrivals: seq<int>, start: int, end: int, pollMs: int): Answer {
    match LatestUpto(polls, start)
    case None => Pending
    case Some(before) =>
      var inside := Within(polls, start, end);
      if inside == [] then Pending
      else if 2 * WidestGap(before, inside) > 5 * pollMs then Pending
      else if ArrivedWithin(arrivals, start, end) then Yes
      else No
  }

  function Respond(w: Watch, r: Request, watched: set<Route>, pollMs: int, now: int): Answer {
    if r.route !in watched then Pending
    else if r.route !in w.stops || r.stop !in w.stops[r.route] then Pending
    else if r.start > now then Pending
    else if !r.mapped then Pending
    else Judge(Lookup(w.polls, r.route), Lookup(w.events, (r.route, r.stop)), r.start, r.end, pollMs)
  }

  predicate Healthy(w: Watch, pollMs: nat, now: int) {
    now - w.lastSuccess < 3 * pollMs
  }

  /** The service's reply: nothing (status 503) while the last successful call is three periods old. */
  function Serve(w: Watch, r: Request, watched: set<Route>, pollMs: nat, now: int): Option<Answer> {
    if Healthy(w, pollMs, now) then Some(Respond(w, r, watched, pollMs, now)) else None
  }

  // ---- What the watcher does ----------------------------------------------------------------------------

  function Appended<K>(m: map<K, seq<int>>, k: K, stamp: int): map<K, seq<int>> {
    m[k := Lookup(m, k) + [stamp]]
  }

  /** One arrival stamp for each bus near a stop. */
  function Arrivals(
      events: map<(Route, Stop), seq<int>>, route: Route, near: seq<Stop>, stamp: int
    ): map<(Route, Stop), seq<int>> {
    if near == [] then events
    else Appended(Arrivals(events, route, near[..|near| - 1], stamp), (route, near[|near| - 1]), stamp)
  }

  function Polled(w: Watch, route: Route, near: seq<Stop>, stamp: int): Watch {
    w.(polls := Appended(w.polls, route, stamp), events := Arrivals(w.events, route, near, stamp), lastSuccess := stamp)
  }

  function Cut<K>(m: map<K, seq<int>>, cutoff: int): map<K, seq<int>> {
    map k | k in m :: From(m[k], cutoff)
  }

  function Forgotten(w: Watch, cutoff: int): Watch {
    w.(polls := Cut(w.polls, cutoff), events := Cut(w.events, cutoff))
  }

  function Refreshed(w: Watch, route: Route, found: Option<set<Stop>>): Watch {
    match found
    case Some(stops) => w.(stops := w.stops[route := stops])
    case None => w
  }

  /** What the calls of one route's turn bring: the route's stops, when they were due and fetched, and
      then its buses. */
  datatype Fetch =
    | NoStops
    | NoBuses(found: Option<set<Stop>>)
    | Fetched(found: Option<set<Stop>>, buses: seq<Bus>, stamp: int)

  /** What the turn records: nothing of a failed call, else a poll and the stops a bus was near. */
  datatype Turn = Failed(found: Option<set<Stop>>) | Seen(found: Option<set<Stop>>, stamp: int, near: seq<Stop>)

  ghost predicate SomeClose(buses: seq<Bus>, close: (Bus, Stop) -> bool, stop: Stop) {
    exists k :: 0 <= k < |buses| && close(buses[k], stop)
  }

  /** Exactly the stops of the route that some bus is close to. */
  ghost predicate NearBuses(stops: set<Stop>, buses: seq<Bus>, close: (Bus, Stop) -> bool, near: seq<Stop>) {
    forall stop :: stop in near <==> stop in stops && SomeClose(buses, close, stop)
  }

  function StopsOf(w: Watch, route: Route): set<Stop> {
    if route in w.stops then w.stops[route] else {}
  }

  ghost predicate Turns(w: Watch, route: Route, f: Fetch, close: (Bus, Stop) -> bool, t: Turn) {
    match f
    case NoStops => t == Failed(None)
    case NoBuses(found) => t == Failed(found)
    case Fetched(found, buses, stamp) =>
      t.Seen? && t.found == found && t.stamp == stamp && NearBuses(StopsOf(Refreshed(w, route, found), route), buses, close, t.near)
  }

  function Turned(w: Watch, route: Route, t: Turn): Watch {
    match t
    case Failed(found) => Refreshed(w, route, found)
    case Seen(found, stamp, near) => Polled(Refreshed(w, route, found), route, near, stamp)
  }

  function Round(w: Watch, routes: seq<Route>, turns: seq<Turn>): Watch
    requires |turns| == |routes|
  {
    if routes == [] then w
    else
      var n := |routes| - 1;
      Turned(Round(w, routes[..n], turns[..n]), routes[n], turns[n])
  }

  class Watcher {
    const routes: seq<Route>
    const pollMs: nat
    const bufferMs: nat
    var polls: map<Route, seq<int>>
    var events: map<(Route, Stop), seq<int>>
    var stops: map<Route, set<Stop>>
    var lastSuccess: int

    function State(): Watch
      reads this
    {
      Watch(polls, events, stops, lastSuccess)
    }

    constructor (routes: seq<Route>, pollMs: nat, bufferMs: nat)
      ensures this.routes == routes && this.pollMs == pollMs && this.bufferMs == bufferMs
      ensures State() == Started(routes)
    {
      this.routes, this.pollMs, this.bufferMs := routes, pollMs, bufferMs;
      polls, events, stops, lastSuccess := map r | r in routes :: [], map[], map[], 0;
    }

    method RefreshStops(route: Route, found: set<Stop>)
      modifies this
      ensures State() == old(State()).(stops := old(stops)[route := found])
    {
      stops := stops[route := found];
    }

    /** One route's poll, under the lock: an arrival for each bus that is close to a stop. */
    method Record(route: Route, buses: seq<Bus>, close: (Bus, Stop) -> bool, stamp: int) returns (ghost near: seq<Stop>)
      modifies this
      ensures NearBuses(StopsOf(old(State()), route), buses, close, near)
      ensures State() == Polled(old(State()), route, near, stamp)
    {
      var here := if route in stops then stops[route] else {};
      polls := polls[route := Lookup(polls, route) + [stamp]];
      near := [];
      var b := 0;
      while b < |buses|
        invariant 0 <= b <= |buses|
        invariant NearBuses(here, buses[..b], close, near)
        invariant State() == old(State()).(
          polls := Appended(old(polls), route, stamp), events := Arrivals(old(events), route, near, stamp))
      {
        ghost var before := near;
        var left := here;
        while left != {}
          invariant left <= here
          invariant forall stop :: stop in near <==> stop in before || (stop in here - left && close(buses[b], stop))
          invariant State() == old(State()).(
            polls := Appended(old(polls), route, stamp), events := Arrivals(old(events), route, near, stamp))
          decreases left
        {
          var stop :| stop in left;
          left := left - {stop};
          if close(buses[b], stop) {
            events := events[(route, stop) := Lookup(events, (route, stop)) + [stamp]];
            assert (near + [stop])[..|near|] == near;
            near := near + [stop];
          }
        }
        OneMoreBus(here, buses, close, b, before, near);
        b := b + 1;
      }
      assert buses[..b] == buses;
      lastSuccess := stamp;
    }

    lemma OneMoreBus(
        here: set<Stop>, buses: seq<Bus>, close: (Bus, Stop) -> bool, b: nat, before: seq<Stop>, near: seq<Stop>
      )
      requires b < |buses| && NearBuses(here, buses[..b], close, before)
      requires forall stop :: stop in near <==> stop in before || (stop in here && close(buses[b], stop))
      ensures NearBuses(here, buses[..b + 1], close, near)
    {
      forall stop ensures SomeClose(buses[..b + 1], close, stop) <==> SomeClose(buses[..b], close, stop) || close(buses[b], stop) {
        assert buses[..b + 1][b] == buses[b];
        if SomeClose(buses[..b], close, stop) {
          var k :| 0 <= k < b && close(buses[..b][k], stop);
          assert close(buses[..b + 1][k], stop);
        }
        if SomeClose(buses[..b + 1], close, stop) {
          var k :| 0 <= k < b + 1 && close(buses[..b + 1][k], stop);
          assert k < b ==> close(buses[..b][k], stop);
        }
      }
    }

    /** One route's turn. */
    method PollRoute(route: Route, f: Fetch, close: (Bus, Stop) -> bool) returns (ghost t: Turn)
      modifies this
      ensures Turns(old(State()), route, f, close, t)
      ensures State() == Turned(old(State()), route, t)
    {
      if f.NoStops? {
        return Failed(None);
      }
      if f.found.Some? {
        RefreshStops(route, f.found.value);
      }
      if f.NoBuses? {
        return Failed(f.found);
      }
      ghost var near := Record(route, f.buses, close, f.stamp);
      return Seen(f.found, f.stamp, near);
    }

    /** One round over the routes, then a prune; `turns` is what each route's calls came to. */
    method PollOnce(fetches: seq<Fetch>, close: (Bus, Stop) -> bool, now: int) returns (ghost turns: seq<Turn>)
      requires |fetches| == |routes|
      modifies this
      ensures |turns| == |routes|
      ensures forall k :: 0 <= k < |routes| ==>
        Turns(Round(old(State()), routes[..k], turns[..k]), routes[k], fetches[k], close, turns[k])
      ensures State() == Forgotten(Round(old(State()), routes, turns), now - bufferMs)
    {
      hide Turns, Turned;
      turns := [];
      var k := 0;
      while k < |routes|
        invariant 0 <= k <= |routes| && |turns| == k
        invariant State() == Round(old(State()), routes[..k], turns)
        invariant forall j :: 0 <= j < k ==>
          Turns(Round(old(State()), routes[..j], turns[..j]), routes[j], fetches[j], close, turns[j])
      {
        assert routes[..k + 1][..k] == routes[..k];
        ghost var before := turns;
        ghost var t := PollRoute(routes[k], fetches[k], close);
        turns := turns + [t];
        assert turns[..k] == before && forall j :: 0 <= j <= k ==> turns[..j] == before[..j];
        k := k + 1;
      }
      assert routes[..k] == routes && turns[..k] == turns;
      Prune(now);
    }

    method Prune(now: int)
      modifies this
      ensures State() == Forgotten(old(State()), now - bufferMs)
    {
      var cutoff := now - bufferMs;
      events := Cut(events, cutoff);
      polls := Cut(polls, cutoff);
    }

    method Reply(r: Request, now: int) returns (answer: Answer)
      ensures answer == Respond(State(), r, (set x | x in routes), pollMs, now)
    {
      if r.route !in routes || r.route !in stops || r.stop !in stops[r.route] || now < r.start {
        return Pending;
      }
      var seen := Lookup(polls, r.route);
      var before := LatestUpto(seen, r.start);
      if before.None? {
        return Pending;
      }
      var inside := Within(seen, r.start, r.end);
      if inside == [] {
        return Pending;
      }
      if 2 * WidestGap(before.value, inside) > 5 * pollMs {
        return Pending;
      }
      if !r.mapped {
        return Pending;
      }
      answer := if ArrivedWithin(Lookup(events, (r.route, r.stop)), r.start, r.end) then Yes else No;
    }

    /** One request over HTTP. */
    method Post(r: Request, now: int) returns (reply: Option<Answer>)
      ensures reply == Serve(State(), r, (set x | x in routes), pollMs, now)
      ensures reply.None? <==> lastSuccess + 3 * pollMs <= now
      ensures reply.Some? ==> reply.value == Respond(State(), r, (set x | x in routes), pollMs, now)
    {
      if now - lastSuccess >= 3 * pollMs {
        return None;
      }
      var answer := Reply(r, now);
      return Some(answer);
    }
  }

  // ---- Runs, with everything ever recorded -----------------------------------------------------------------

  datatype Event =
    | Poll(route: Route, near: seq<Stop>)
    | Prune
    | Refresh(route: Route, found: set<Stop>)

  datatype Stamped = Stamped(event: Event, at: int)

  /** The watcher beside a record of all polls and arrivals, and of the highest cutoff so far. */
  datatype Log = Log(now: Watch, ever: Watch, cutoff: int, clock: int)

  function Next(l: Log, s: Stamped, bufferMs: nat): Log {
    match s.event
    case Poll(route, near) =>
      Log(Polled(l.now, route, near, s.at), Polled(l.ever, route, near, s.at), l.cutoff, s.at)
    case Prune =>
      var cutoff := s.at - bufferMs;
      Log(Forgotten(l.now, cutoff), l.ever, if cutoff > l.cutoff then cutoff else l.cutoff, s.at)
    case Refresh(route, found) =>
      l.(now := l.now.(stops := l.now.stops[route := found]), clock := s.at)
  }

  function Play(l: Log, steps: seq<Stamped>, bufferMs: nat): Log {
    if steps == [] then l else Next(Play(l, steps[..|steps| - 1], bufferMs), steps[|steps| - 1], bufferMs)
  }

  /** A clock that does not go back. */
  ghost predicate InOrder(l: Log, steps: seq<Stamped>, bufferMs: nat) {
    forall k :: 0 <= k < |steps| ==> Play(l, steps[..k], bufferMs).clock <= steps[k].at
  }

  ghost predicate Kept<K(!new)>(now: map<K, seq<int>>, ever: map<K, seq<int>>, cutoff: int) {
    forall k {:trigger Lookup(now, k)} {:trigger Lookup(ever, k)} :: Lookup(now, k) == From(Lookup(ever, k), cutoff)
  }

  /** Only stamps from `since` on were added. */
  ghost predicate Grown<K(!new)>(before: map<K, seq<int>>, after: map<K, seq<int>>, since: int) {
    forall k {:trigger Lookup(before, k)} {:trigger Lookup(after, k)} ::
      && Lookup(before, k) <= Lookup(after, k)
      && forall j :: |Lookup(before, k)| <= j < |Lookup(after, k)| ==> since <= Lookup(after, k)[j]
  }

  /** A watcher at its start: nothing recorded, nothing forgotten. */
  lemma NewWatcherRemembers(routes: seq<Route>, cutoff: int, clock: int)
    requires cutoff <= clock
    ensures Remembers(Log(Started(routes), Started(routes), cutoff, clock))
  {
    FromNothing(cutoff);
    var polls: map<Route, seq<int>> := map r | r in routes :: [];
    forall r ensures Lookup(polls, r) == From(Lookup(polls, r), cutoff) {
      assert Lookup(polls, r) == [];
    }
  }

  /** The watcher remembers exactly what was recorded from the cutoff on. */
  ghost predicate Remembers(l: Log) {
    && l.cutoff <= l.clock
    && Kept(l.now.polls, l.ever.polls, l.cutoff)
    && Kept(l.now.events, l.ever.events, l.cutoff)
  }

  lemma {:induction false} FromTwice(stamps: seq<int>, a: int, b: int)
    ensures From(From(stamps, a), b) == From(stamps, if b > a then b else a)
  {
    if stamps != [] {
      var n := |stamps| - 1;
      FromTwice(stamps[..n], a, b);
      if stamps[n] >= a {
        FromAppend(From(stamps[..n], a), stamps[n], b);
      }
    }
  }

  lemma FromAppend(stamps: seq<int>, t: int, cutoff: int)
    ensures From(stamps + [t], cutoff) == if t >= cutoff then From(stamps, cutoff) + [t] else From(stamps, cutoff)
  {
    assert (stamps + [t])[..|stamps|] == stamps;
  }

  lemma AppendedKept<K(!new)>(now: map<K, seq<int>>, ever: map<K, seq<int>>, cutoff: int, k: K, stamp: int)
    requires Kept(now, ever, cutoff) && cutoff <= stamp
    ensures Kept(Appended(now, k, stamp), Appended(ever, k, stamp), cutoff)
    ensures Grown(ever, Appended(ever, k, stamp), stamp)
  {
    hide From;
    FromAppend(Lookup(ever, k), stamp, cutoff);
    assert Lookup(now, k) == From(Lookup(ever, k), cutoff);
    var now1, ever1 := Appended(now, k, stamp), Appended(ever, k, stamp);
    forall j ensures Lookup(now1, j) == From(Lookup(ever1, j), cutoff) {
      assert Lookup(now, j) == From(Lookup(ever, j), cutoff);
    }
  }

  lemma GrownTransitively<K(!new)>(a: map<K, seq<int>>, b: map<K, seq<int>>, c: map<K, seq<int>>, early: int, late: int)
    requires Grown(a, b, early) && Grown(b, c, late) && early <= late
    ensures Grown(a, c, early)
  {
    forall k
      ensures Lookup(a, k) <= Lookup(c, k)
      ensures forall j :: |Lookup(a, k)| <= j < |Lookup(c, k)| ==> early <= Lookup(c, k)[j]
    {
      assert Lookup(a, k) <= Lookup(b, k) && Lookup(b, k) <= Lookup(c, k);
      forall j | |Lookup(a, k)| <= j < |Lookup(c, k)| ensures early <= Lookup(c, k)[j] {
        if j < |Lookup(b, k)| {
          assert Lookup(c, k)[j] == Lookup(b, k)[j];
        }
      }
    }
  }

  lemma {:induction false} ArrivalsKept(
    now: map<(Route, Stop), seq<int>>, ever: map<(Route, Stop), seq<int>>, route: Route, near: seq<Stop>, stamp: int, cutoff: int
  )
    requires Kept(now, ever, cutoff) && cutoff <= stamp
    ensures Kept(Arrivals(now, route, near, stamp), Arrivals(ever, route, near, stamp), cutoff)
    ensures Grown(ever, Arrivals(ever, route, near, stamp), stamp)
  {
    hide Kept, Grown;
    if near == [] {
      assert Grown(ever, ever, stamp) by { NothingGrown(ever, stamp); }
    } else {
      var n := |near| - 1;
      ArrivalsKept(now, ever, route, near[..n], stamp, cutoff);
      var now0, ever0 := Arrivals(now, route, near[..n], stamp), Arrivals(ever, route, near[..n], stamp);
      AppendedKept(now0, ever0, cutoff, (route, near[n]), stamp);
      GrownTransitively(ever, ever0, Arrivals(ever, route, near, stamp), stamp, stamp);
    }
  }

  lemma NothingGrown<K(!new)>(m: map<K, seq<int>>, since: int)
    ensures Grown(m, m, since)
  {}

  lemma GrownEarlier<K(!new)>(a: map<K, seq<int>>, b: map<K, seq<int>>, early: int, late: int)
    requires Grown(a, b, late) && early <= late
    ensures Grown(a, b, early)
  {}

  lemma ForgottenKept<K(!new)>(now: map<K, seq<int>>, ever: map<K, seq<int>>, cutoff: int, next: int)
    requires Kept(now, ever, cutoff)
    ensures Kept(Cut(now, next), ever, if next > cutoff then next else cutoff)
  {
    hide From;
    var kept := Cut(now, next);
    FromNothing(next);
    forall k ensures Lookup(kept, k) == From(Lookup(ever, k), if next > cutoff then next else cutoff) {
      assert Lookup(now, k) == From(Lookup(ever, k), cutoff);
      FromTwice(Lookup(ever, k), cutoff, next);
    }
  }

  lemma FromNothing(cutoff: int)
    ensures From([], cutoff) == []
  {}

  lemma NextRemembers(l: Log, s: Stamped, bufferMs: nat)
    requires Remembers(l) && l.clock <= s.at
    ensures Remembers(Next(l, s, bufferMs))
    ensures Grown(l.ever.events, Next(l, s, bufferMs).ever.events, l.clock)
    ensures Grown(l.ever.polls, Next(l, s, bufferMs).ever.polls, l.clock)
  {
    hide Kept, Grown, Arrivals, Appended;
    match s.event
    case Poll(route, near) =>
      ArrivalsKept(l.now.events, l.ever.events, route, near, s.at, l.cutoff);
      GrownEarlier(l.ever.events, Arrivals(l.ever.events, route, near, s.at), l.clock, s.at);
      AppendedKept(l.now.polls, l.ever.polls, l.cutoff, route, s.at);
      GrownEarlier(l.ever.polls, Appended(l.ever.polls, route, s.at), l.clock, s.at);
    case Prune =>
      NothingGrown(l.ever.events, l.clock);
      NothingGrown(l.ever.polls, l.clock);
      ForgottenKept(l.now.polls, l.ever.polls, l.cutoff, s.at - bufferMs);
      ForgottenKept(l.now.events, l.ever.events, l.cutoff, s.at - bufferMs);
    case Refresh(_, _) =>
      NothingGrown(l.ever.events, l.clock);
      NothingGrown(l.ever.polls, l.clock);
  }

  lemma InOrderInit(l: Log, steps: seq<Stamped>, bufferMs: nat)
    requires InOrder(l, steps, bufferMs) && steps != []
    ensures InOrder(l, steps[..|steps| - 1], bufferMs)
    ensures Play(l, steps[..|steps| - 1], bufferMs).clock <= steps[|steps| - 1].at
  {
    var n := |steps| - 1;
    forall k | 0 <= k < n ensures Play(l, steps[..n][..k], bufferMs).clock <= steps[..n][k].at {
      assert steps[..n][..k] == steps[..k];
    }
  }

  lemma {:induction false} PlayRemembers(l: Log, steps: seq<Stamped>, bufferMs: nat)
    requires Remembers(l) && InOrder(l, steps, bufferMs)
    ensures Remembers(Play(l, steps, bufferMs)) && l.clock <= Play(l, steps, bufferMs).clock
    ensures Grown(l.ever.events, Play(l, steps, bufferMs).ever.events, l.clock)
    ensures Grown(l.ever.polls, Play(l, steps, bufferMs).ever.polls, l.clock)
  {
    hide Remembers, Next, Grown;
    if steps == [] {
      NothingGrown(l.ever.events, l.clock);
      NothingGrown(l.ever.polls, l.clock);
    } else {
      var n := |steps| - 1;
      InOrderInit(l, steps, bufferMs);
      PlayRemembers(l, steps[..n], bufferMs);
      var before := Play(l, steps[..n], bufferMs);
      NextRemembers(before, steps[n], bufferMs);
      ClockMoves(before, steps[n], bufferMs);
      GrownTransitively(l.ever.events, before.ever.events, Play(l, steps, bufferMs).ever.events, l.clock, before.clock);
      GrownTransitively(l.ever.polls, before.ever.polls, Play(l, steps, bufferMs).ever.polls, l.clock, before.clock);
    }
  }

  lemma ClockMoves(l: Log, s: Stamped, bufferMs: nat)
    ensures Next(l, s, bufferMs).clock == s.at
  {}

  // ---- Answers -----------------------------------------------------------------------------------------------

  lemma {:induction false} FromKeeps(stamps: seq<int>, cutoff: int)
    ensures forall t :: t in From(stamps, cutoff) <==> t in stamps && cutoff <= t
  {
    if stamps != [] {
      var n := |stamps| - 1;
      FromKeeps(stamps[..n], cutoff);
      assert stamps == stamps[..n] + [stamps[n]];
    }
  }

  lemma ArrivedAsMember(stamps: seq<int>, start: int, end: int)
    ensures ArrivedWithin(stamps, start, end) <==> exists t :: t in stamps && start <= t < end
  {
    if ArrivedWithin(stamps, start, end) {
      var k :| 0 <= k < |stamps| && start <= stamps[k] < end;
      assert stamps[k] in stamps;
    }
  }

  /** A definite answer is the truth about everything ever recorded: yes exactly when an arrival was
      recorded inside [start, end), for a surviving poll before the window shows that the shared
      cutoff has kept every arrival since. */
  lemma DefiniteAnswerIsRecordedTruth(l: Log, r: Request, watched: set<Route>, pollMs: nat, asked: int)
    requires Remembers(l)
    ensures var answer := Respond(l.now, r, watched, pollMs, asked);
            var arrived := ArrivedWithin(Lookup(l.ever.events, (r.route, r.stop)), r.start, r.end);
            (answer == Yes ==> arrived) && (answer == No ==> !arrived)
  {
    hide From, ArrivedWithin;
    var polls, key := Lookup(l.ever.polls, r.route), (r.route, r.stop);
    var all := Lookup(l.ever.events, key);
    FromKeeps(polls, l.cutoff);
    FromKeeps(all, l.cutoff);
    ArrivedAsMember(all, r.start, r.end);
    ArrivedAsMember(From(all, l.cutoff), r.start, r.end);
  }

  /** A recorded arrival inside the window is never answered with no, however much later and after
      whatever polls and prunes. */
  lemma RecordedArrivalIsNeverNo(
      l: Log, steps: seq<Stamped>, bufferMs: nat, r: Request, watched: set<Route>, pollMs: nat, asked: int
    )
    requires Remembers(l) && InOrder(l, steps, bufferMs)
    requires ArrivedWithin(Lookup(l.ever.events, (r.route, r.stop)), r.start, r.end)
    ensures Respond(Play(l, steps, bufferMs).now, r, watched, pollMs, asked) != No
  {
    hide Remembers, Respond, Play;
    PlayRemembers(l, steps, bufferMs);
    var key := (r.route, r.stop);
    var before, after := Lookup(l.ever.events, key), Lookup(Play(l, steps, bufferMs).ever.events, key);
    var k :| 0 <= k < |before| && r.start <= before[k] < r.end;
    assert after[k] == before[k];
    DefiniteAnswerIsRecordedTruth(Play(l, steps, bufferMs), r, watched, pollMs, asked);
  }

  /** Once the window has ended, a definite answer is final: every later answer is the same or
      pending. */
  lemma AnswersAreStable(
    l: Log, steps: seq<Stamped>, bufferMs: nat, r: Request, watched: set<Route>, pollMs: nat, asked: int, later: int
  )
    requires Remembers(l) && InOrder(l, steps, bufferMs) && r.end <= l.clock
    requires Respond(l.now, r, watched, pollMs, asked) != Pending
    ensures var again := Respond(Play(l, steps, bufferMs).now, r, watched, pollMs, later);
            again == Pending || again == Respond(l.now, r, watched, pollMs, asked)
  {
    hide Remembers, Respond, Play;
    PlayRemembers(l, steps, bufferMs);
    var key, end := (r.route, r.stop), Play(l, steps, bufferMs);
    DefiniteAnswerIsRecordedTruth(l, r, watched, pollMs, asked);
    DefiniteAnswerIsRecordedTruth(end, r, watched, pollMs, later);
    var before, after := Lookup(l.ever.events, key), Lookup(end.ever.events, key);
    if ArrivedWithin(after, r.start, r.end) {
      var k :| 0 <= k < |after| && r.start <= after[k] < r.end;
      assert k < |before|;
      assert before[k] == after[k];
    }
    if ArrivedWithin(before, r.start, r.end) {
      var k :| 0 <= k < |before| && r.start <= before[k] < r.end;
      assert before[k] == after[k];
    }
  }
}
