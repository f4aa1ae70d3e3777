/** What the bus watcher's definite answers say about the time it was watching: exactly when an
    answer rests on polls through the whole window, and exactly when it can still change. */
module Coverage {
  import opened Wrappers
  import opened Watching

  // ---- Order of the stamps ------------------------------------------------------------------------

  ghost predicate Sorted(stamps: seq<int>) {
    forall i, j :: 0 <= i < j < |stamps| ==> stamps[i] <= stamps[j]
  }

  /** Polls are recorded in order and not after the clock, and an arrival bears the stamp of a poll. */
  ghost predicate Ordered(l: Log) {
    && (forall route :: Sorted(Lookup(l.ever.polls, route)))
    && (forall route, t :: t in Lookup(l.ever.polls, route) ==> t <= l.clock)
    && (forall route, stop, t :: t in Lookup(l.ever.events, (route, stop)) ==> t in Lookup(l.ever.polls, route))
  }

  lemma {:induction false} ArrivalStamps(
      events: map<(Route, Stop), seq<int>>, route: Route, near: seq<Stop>, stamp: int, key: (Route, Stop), t: int
    )
    requires t in Lookup(Arrivals(events, route, near, stamp), key)
    ensures t in Lookup(events, key) || (t == stamp && key.0 == route && key.1 in near)
  {
    if near != [] {
      var n := |near| - 1;
      if t in Lookup(Arrivals(events, route, near[..n], stamp), key) {
        ArrivalStamps(events, route, near[..n], stamp, key, t);
      }
    }
  }

  lemma SortedAppend(stamps: seq<int>, t: int)
    requires Sorted(stamps) && forall x :: x in stamps ==> x <= t
    ensures Sorted(stamps + [t])
  {
    forall i, j | 0 <= i < j < |stamps + [t]| ensures (stamps + [t])[i] <= (stamps + [t])[j] {
      assert stamps[i] in stamps;
    }
  }

  lemma NextOrdered(l: Log, s: Stamped, bufferMs: nat)
    requires Ordered(l) && l.clock <= s.at
    ensures Ordered(Next(l, s, bufferMs))
  {
    hide Arrivals;
    if s.event.Poll? {
      var next := Next(l, s, bufferMs);
      SortedAppend(Lookup(l.ever.polls, s.event.route), s.at);
      forall route ensures Sorted(Lookup(next.ever.polls, route)) {
        assert Sorted(Lookup(l.ever.polls, route));
      }
      forall route, t | t in Lookup(next.ever.polls, route) ensures t <= s.at {
        assert t in Lookup(l.ever.polls, route) || t == s.at;
      }
      forall route, stop, t | t in Lookup(next.ever.events, (route, stop)) ensures t in Lookup(next.ever.polls, route) {
        ArrivalStamps(l.ever.events, s.event.route, s.event.near, s.at, (route, stop), t);
        assert Lookup(next.ever.polls, s.event.route) == Lookup(l.ever.polls, s.event.route) + [s.at];
      }
    }
  }

  lemma {:induction false} PlayOrdered(l: Log, steps: seq<Stamped>, bufferMs: nat)
    requires Ordered(l) && InOrder(l, steps, bufferMs)
    ensures Ordered(Play(l, steps, bufferMs))
  {
    hide Ordered, Next;
    if steps != [] {
      InOrderInit(l, steps, bufferMs);
      PlayOrdered(l, steps[..|steps| - 1], bufferMs);
      NextOrdered(Play(l, steps[..|steps| - 1], bufferMs), steps[|steps| - 1], bufferMs);
    }
  }

  lemma {:induction false} WithinMembers(stamps: seq<int>, low: int, high: int)
    ensures forall t :: t in Within(stamps, low, high) <==> t in stamps && low <= t <= high
  {
    if stamps != [] {
      var n := |stamps| - 1;
      WithinMembers(stamps[..n], low, high);
      assert stamps == stamps[..n] + [stamps[n]];
    }
  }

  lemma {:induction false} WithinSorted(stamps: seq<int>, low: int, high: int)
    requires Sorted(stamps)
    ensures Sorted(Within(stamps, low, high))
  {
    if stamps != [] {
      var n := |stamps| - 1;
      WithinSorted(stamps[..n], low, high);
      WithinMembers(stamps[..n], low, high);
      if low <= stamps[n] <= high {
        SortedAppend(Within(stamps[..n], low, high), stamps[n]);
      }
    }
  }

  lemma {:induction false} FromSorted(stamps: seq<int>, cutoff: int)
    requires Sorted(stamps)
    ensures Sorted(From(stamps, cutoff))
  {
    if stamps != [] {
      var n := |stamps| - 1;
      FromSorted(stamps[..n], cutoff);
      FromKeeps(stamps[..n], cutoff);
      if stamps[n] >= cutoff {
        SortedAppend(From(stamps[..n], cutoff), stamps[n]);
      }
    }
  }

  lemma {:induction false} LatestIsLargest(stamps: seq<int>, at: int)
    ensures forall t :: t in stamps && t <= at ==> LatestUpto(stamps, at).Some? && t <= LatestUpto(stamps, at).value
  {
    if stamps != [] {
      var n := |stamps| - 1;
      LatestIsLargest(stamps[..n], at);
      assert stamps == stamps[..n] + [stamps[n]];
    }
  }

  // ---- Coverage, instant by instant --------------------------------------------------------------------

  /** A poll not long before an instant: at most two and a half polling periods. */
  ghost predicate Watched(polls: seq<int>, t: int, pollMs: nat) {
    exists p :: p in polls && p <= t && 2 * (t - p) <= 5 * pollMs
  }

  /** The route was watched through the whole window. */
  ghost predicate WatchedThrough(polls: seq<int>, start: int, end: int, pollMs: nat) {
    forall t :: start <= t <= end ==> Watched(polls, t, pollMs)
  }

  /** The last poll inside a request's window. */
  function LastInside(polls: seq<int>, start: int, end: int): int
    requires Within(polls, start, end) != []
  {
    var inside := Within(polls, start, end);
    inside[|inside| - 1]
  }

  lemma {:induction false} GapCovers(before: int, inside: seq<int>, t: int)
    requires inside != [] && before < t <= inside[|inside| - 1]
    ensures exists p :: p in [before] + inside && p < t && t - p <= WidestGap(before, inside)
    decreases |inside|
  {
    if t <= inside[0] {
      assert before in [before] + inside;
    } else {
      GapCovers(inside[0], inside[1..], t);
      var p :| p in [inside[0]] + inside[1..] && p < t && t - p <= WidestGap(inside[0], inside[1..]);
      assert p in [before] + inside;
    }
  }

  lemma LastIsLargest(polls: seq<int>, start: int, end: int)
    requires Sorted(polls) && Within(polls, start, end) != []
    ensures start <= LastInside(polls, start, end) <= end && LastInside(polls, start, end) in polls
    ensures forall t :: t in polls && t <= end ==> t <= LastInside(polls, start, end)
  {
    var inside := Within(polls, start, end);
    WithinMembers(polls, start, end);
    WithinSorted(polls, start, end);
    assert inside[|inside| - 1] in inside;
  }

  /** Behind a definite answer every instant up to the last poll inside has a recent poll before it. */
  lemma DefiniteCovers(polls: seq<int>, arrivals: seq<int>, start: int, end: int, pollMs: nat, t: int)
    requires Sorted(polls) && Judge(polls, arrivals, start, end, pollMs) != Pending
    requires start < t <= LastInside(polls, start, end)
    ensures exists p :: p in polls && p < t && 2 * (t - p) <= 5 * pollMs
  {
    var before, inside := LatestUpto(polls, start).value, Within(polls, start, end);
    WithinMembers(polls, start, end);
    GapCovers(before, inside, t);
    var p :| p in [before] + inside && p < t && t - p <= WidestGap(before, inside);
    assert p in polls;
  }

  /** A definite answer rests on a route watched through the whole window exactly when the last poll
      inside is near the window's end; the code never compares the two. */
  lemma WatchedThroughIff(polls: seq<int>, arrivals: seq<int>, start: int, end: int, pollMs: nat)
    requires Sorted(polls) && Judge(polls, arrivals, start, end, pollMs) != Pending
    ensures WatchedThrough(polls, start, end, pollMs) <==> 2 * (end - LastInside(polls, start, end)) <= 5 * pollMs
  {
    var last := LastInside(polls, start, end);
    LastIsLargest(polls, start, end);
    if WatchedThrough(polls, start, end, pollMs) {
      assert Watched(polls, end, pollMs);
    }
    if 2 * (end - last) <= 5 * pollMs {
      forall t | start <= t <= end ensures Watched(polls, t, pollMs) {
        if t < last {
          DefiniteCovers(polls, arrivals, start, end, pollMs, t + 1);
        } else {
          assert last in polls;
        }
      }
    }
  }

  /** The route was polled before or at the window's start, then inside the window, and never more than two
      and a half periods apart up to the last poll inside. */
  ghost predicate SteadilyPolled(polls: seq<int>, start: int, end: int, pollMs: nat) {
    && (exists p :: p in polls && p <= start)
    && exists last :: LastUpto(polls, start, end, last)
         && forall t :: start < t <= last ==> PolledWithin(polls, t, pollMs)
  }

  ghost predicate LastUpto(polls: seq<int>, start: int, end: int, last: int) {
    last in polls && start <= last <= end && forall p :: p in polls && p <= end ==> p <= last
  }

  /** Some poll before the instant is at most two and a half periods old. */
  ghost predicate PolledWithin(polls: seq<int>, t: int, pollMs: nat) {
    exists p :: p in polls && p < t && 2 * (t - p) <= 5 * pollMs
  }

  function Prior(before: int, inside: seq<int>, i: nat): int
    requires i < |inside|
  {
    if i == 0 then before else inside[i - 1]
  }

  /** The widest gap is between some stamp and the one before it. */
  lemma {:induction false} WideGapAt(before: int, inside: seq<int>, gap: int) returns (i: nat)
    requires inside != [] && gap < WidestGap(before, inside)
    ensures i < |inside| && inside[i] - Prior(before, inside, i) > gap
    decreases |inside|
  {
    i := 0;
    if inside[0] - before <= gap {
      i := WideGapAt(inside[0], inside[1..], gap);
      i := i + 1;
    }
  }

  /** No stamp lies between two neighbours. */
  lemma NothingBetween(before: int, inside: seq<int>, i: nat)
    requires Sorted(inside) && i < |inside| && forall p :: p in inside ==> before <= p
    ensures inside[i] <= inside[|inside| - 1]
    ensures Prior(before, inside, i) == before || Prior(before, inside, i) in inside
    ensures before <= Prior(before, inside, i)
    ensures forall p :: p in inside ==> p <= Prior(before, inside, i) || inside[i] <= p
  {
    forall p | p in inside ensures p <= Prior(before, inside, i) || inside[i] <= p {
      var k :| 0 <= k < |inside| && inside[k] == p;
    }
  }

  /** When the polls remembered allow a definite answer, told without reference to how the code finds out. */
  lemma DefiniteIff(polls: seq<int>, arrivals: seq<int>, start: int, end: int, pollMs: nat)
    requires Sorted(polls)
    ensures Judge(polls, arrivals, start, end, pollMs) != Pending <==> SteadilyPolled(polls, start, end, pollMs)
  {
    hide ArrivedWithin;
    WithinMembers(polls, start, end);
    LatestIsLargest(polls, start);
    var inside := Within(polls, start, end);
    if inside != [] && LatestUpto(polls, start).Some? {
      LastIsLargest(polls, start, end);
      var before, last := LatestUpto(polls, start).value, LastInside(polls, start, end);
      assert LastUpto(polls, start, end, last);
      if Judge(polls, arrivals, start, end, pollMs) != Pending {
        forall t | start < t <= last ensures PolledWithin(polls, t, pollMs) {
          DefiniteCovers(polls, arrivals, start, end, pollMs, t);
        }
      } else {
        GapIsUnpolled(polls, start, end, pollMs, before, last);
      }
    }
  }

  lemma GapIsUnpolled(polls: seq<int>, start: int, end: int, pollMs: nat, before: int, last: int)
    requires Sorted(polls) && LatestUpto(polls, start) == Some(before)
    requires Within(polls, start, end) != [] && LastUpto(polls, start, end, last)
    requires 2 * WidestGap(before, Within(polls, start, end)) > 5 * pollMs
    ensures exists t :: start < t <= last && !PolledWithin(polls, t, pollMs)
  {
    hide LatestUpto, Within, WidestGap;
    var inside := Within(polls, start, end);
    WithinMembers(polls, start, end);
    WithinSorted(polls, start, end);
    LatestIsLargest(polls, start);
    var i := WideGapAt(before, inside, 5 * pollMs / 2);
    NothingBetween(before, inside, i);
    var t := inside[i];
    assert inside[|inside| - 1] in inside && t in inside;
    forall p | p in polls && p < t ensures 2 * (t - p) > 5 * pollMs {
      assert p >= start ==> p in inside;
    }
    assert !PolledWithin(polls, t, pollMs);
  }

  lemma JudgeOfDefinite(w: Watch, r: Request, watched: set<Route>, pollMs: nat, asked: int)
    requires Respond(w, r, watched, pollMs, asked) != Pending
    ensures Respond(w, r, watched, pollMs, asked)
         == Judge(Lookup(w.polls, r.route), Lookup(w.events, (r.route, r.stop)), r.start, r.end, pollMs)
    ensures Within(Lookup(w.polls, r.route), r.start, r.end) != []
  {}

  /** The whole reply: definite exactly for a known stop of a watched route, with outcomes told apart, asked
      from the window's start on, about a window the remembered polls steadily cover; and then yes exactly
      when a remembered arrival lies inside [start, end). */
  lemma ReplyIff(w: Watch, r: Request, watched: set<Route>, pollMs: nat, asked: int)
    requires Sorted(Lookup(w.polls, r.route))
    ensures Respond(w, r, watched, pollMs, asked) != Pending <==>
      && r.route in watched && r.route in w.stops && r.stop in w.stops[r.route]
      && r.start <= asked && r.mapped
      && SteadilyPolled(Lookup(w.polls, r.route), r.start, r.end, pollMs)
    ensures Respond(w, r, watched, pollMs, asked) != Pending ==>
      (Respond(w, r, watched, pollMs, asked) == Yes
       <==> exists t :: t in Lookup(w.events, (r.route, r.stop)) && r.start <= t < r.end)
  {
    hide SteadilyPolled, ArrivedWithin, Within, LatestUpto;
    DefiniteIff(Lookup(w.polls, r.route), Lookup(w.events, (r.route, r.stop)), r.start, r.end, pollMs);
    ArrivedAsMember(Lookup(w.events, (r.route, r.stop)), r.start, r.end);
  }

  /** What a definite answer says of the polls still remembered and of those ever recorded. */
  lemma RememberedPolls(l: Log, r: Request, watched: set<Route>, pollMs: nat, asked: int)
    requires Remembers(l) && Ordered(l) && Respond(l.now, r, watched, pollMs, asked) != Pending
    ensures var now, ever := Lookup(l.now.polls, r.route), Lookup(l.ever.polls, r.route);
            && Sorted(now)
            && (forall t :: t in now ==> t in ever && t <= l.clock)
            && (forall t :: t in ever && r.start <= t ==> t in now)
            && (exists b :: b in now && b <= r.start && forall t :: t in ever && t !in now ==> t < b)
  {
    hide From, Within, LatestUpto, ArrivedWithin, WidestGap;
    var now, ever := Lookup(l.now.polls, r.route), Lookup(l.ever.polls, r.route);
    assert Kept(l.now.polls, l.ever.polls, l.cutoff) && now == From(ever, l.cutoff);
    FromKeeps(ever, l.cutoff);
    FromSorted(ever, l.cutoff);
    JudgeOfDefinite(l.now, r, watched, pollMs, asked);
    var b := LatestUpto(now, r.start).value;
    assert b in now;
  }

  /** At any point of any run: a definite answer is backed by polls through the whole window, of all
      polls ever recorded, exactly when the last poll inside is at most two and a half periods before
      the window's end. */
  lemma DefiniteIsWatchedThroughIff(l: Log, r: Request, watched: set<Route>, pollMs: nat, asked: int)
    requires Remembers(l) && Ordered(l) && Respond(l.now, r, watched, pollMs, asked) != Pending
    ensures Within(Lookup(l.now.polls, r.route), r.start, r.end) != []
    ensures WatchedThrough(Lookup(l.ever.polls, r.route), r.start, r.end, pollMs)
       <==> 2 * (r.end - LastInside(Lookup(l.now.polls, r.route), r.start, r.end)) <= 5 * pollMs
  {
    hide Respond, Judge, Remembers, Ordered;
    var now, ever := Lookup(l.now.polls, r.route), Lookup(l.ever.polls, r.route);
    JudgeOfDefinite(l.now, r, watched, pollMs, asked);
    RememberedPolls(l, r, watched, pollMs, asked);
    WatchedThroughIff(now, Lookup(l.now.events, (r.route, r.stop)), r.start, r.end, pollMs);
    var b :| b in now && b <= r.start && forall t :: t in ever && t !in now ==> t < b;
    forall t | r.start <= t <= r.end ensures Watched(ever, t, pollMs) <==> Watched(now, t, pollMs) {
      if Watched(ever, t, pollMs) {
        var p :| p in ever && p <= t && 2 * (t - p) <= 5 * pollMs;
        assert p in now || (p < b && b <= t);
        assert Watched(now, t, pollMs);
      }
    }
  }

  // ---- Answers before the window's end -----------------------------------------------------------------

  lemma {:induction false} GapAppend(before: int, stamps: seq<int>, t: int)
    requires stamps != []
    ensures var step, gap := t - stamps[|stamps| - 1], WidestGap(before, stamps);
            WidestGap(before, stamps + [t]) == if step > gap then step else gap
    decreases |stamps|
  {
    if |stamps| == 1 {
      assert (stamps + [t])[1..] == [t];
    } else {
      GapAppend(stamps[0], stamps[1..], t);
      assert (stamps + [t])[1..] == stamps[1..] + [t];
    }
  }

  lemma {:induction false} ArrivalsAppend(
      events: map<(Route, Stop), seq<int>>, route: Route, near: seq<Stop>, stamp: int, stop: Stop
    )
    ensures forall t :: t in Lookup(Arrivals(events, route, near, stamp), (route, stop))
                   <==> t in Lookup(events, (route, stop)) || (t == stamp && stop in near)
  {
    if near != [] {
      var n := |near| - 1;
      ArrivalsAppend(events, route, near[..n], stamp, stop);
      assert near == near[..n] + [near[n]];
      var before := Arrivals(events, route, near[..n], stamp);
      assert Lookup(Arrivals(events, route, near, stamp), (route, stop))
          == if near[n] == stop then Lookup(before, (route, stop)) + [stamp] else Lookup(before, (route, stop));
    }
  }

  /** The condition under which a no can still change: some of the window is left, and the last poll
      is at most two and a half periods old. */
  predicate Open(w: Watch, r: Request, pollMs: nat, t: int)
    requires Within(Lookup(w.polls, r.route), r.start, r.end) != []
  {
    t < r.end && 2 * (t - LastInside(Lookup(w.polls, r.route), r.start, r.end)) <= 5 * pollMs
  }

  lemma PollsAppend(polls: seq<int>, start: int, end: int, t: int)
    requires Within(polls, start, end) != [] && Sorted(polls) && LatestUpto(polls, start).Some?
    requires LastInside(polls, start, end) <= t < end
    ensures LatestUpto(polls + [t], start) == LatestUpto(polls, start)
    ensures Within(polls + [t], start, end) == Within(polls, start, end) + [t]
  {
    assert (polls + [t])[..|polls|] == polls;
    LastIsLargest(polls, start, end);
    LatestIsLargest(polls, start);
  }

  /** What the next poll makes of a no: a yes exactly when it sees a bus at the stop before the
      window's end and not more than two and a half periods after the last poll inside. */
  lemma EarlyNoCanFlip(
      l: Log, r: Request, near: seq<Stop>, t: int, watched: set<Route>, pollMs: nat, bufferMs: nat, asked: int, later: int
    )
    requires Remembers(l) && Ordered(l) && l.clock <= t && r.start <= later
    requires Respond(l.now, r, watched, pollMs, asked) == No
    ensures Within(Lookup(l.now.polls, r.route), r.start, r.end) != []
    ensures Respond(Next(l, Stamped(Poll(r.route, near), t), bufferMs).now, r, watched, pollMs, later) == Yes
       <==> r.stop in near && Open(l.now, r, pollMs, t)
  {
    hide Remembers, Ordered, Arrivals, Within, LatestUpto, WidestGap, ArrivedWithin;
    var polls, next := Lookup(l.now.polls, r.route), Next(l, Stamped(Poll(r.route, near), t), bufferMs).now;
    var key := (r.route, r.stop);
    JudgeOfDefinite(l.now, r, watched, pollMs, asked);
    RememberedPolls(l, r, watched, pollMs, asked);
    LastIsLargest(polls, r.start, r.end);
    assert Lookup(next.polls, r.route) == polls + [t];
    ArrivalsAppend(l.now.events, r.route, near, t, r.stop);
    ArrivedAsMember(Lookup(l.now.events, key), r.start, r.end);
    ArrivedAsMember(Lookup(next.events, key), r.start, r.end);
    var arrivals := Lookup(next.events, key);
    assert arrivals == Lookup(Arrivals(l.now.events, r.route, near, t), key);
    assert r.stop in near ==> t in arrivals;
    assert ArrivedWithin(arrivals, r.start, r.end) <==> r.start <= t < r.end && r.stop in near;
    if t < r.end {
      PollsAppend(polls, r.start, r.end, t);
      GapAppend(LatestUpto(polls, r.start).value, Within(polls, r.start, r.end), t);
    }
  }

  /** A yes is never taken back as a no, before the window's end or after it. */
  lemma YesNeverBecomesNo(
      l: Log, steps: seq<Stamped>, bufferMs: nat, r: Request, watched: set<Route>, pollMs: nat, asked: int, later: int
    )
    requires Remembers(l) && InOrder(l, steps, bufferMs) && Respond(l.now, r, watched, pollMs, asked) == Yes
    ensures Respond(Play(l, steps, bufferMs).now, r, watched, pollMs, later) != No
  {
    hide Respond, Remembers, InOrder;
    DefiniteAnswerIsRecordedTruth(l, r, watched, pollMs, asked);
    RecordedArrivalIsNeverNo(l, steps, bufferMs, r, watched, pollMs, later);
  }

  /** A yes after a no comes from an arrival recorded since, which bears the stamp of a new poll. */
  lemma YesAfterNo(
      l: Log, steps: seq<Stamped>, bufferMs: nat, r: Request, watched: set<Route>, pollMs: nat, asked: int, later: int
    ) returns (arrival: int)
    requires Remembers(l) && Ordered(l) && InOrder(l, steps, bufferMs)
    requires Respond(l.now, r, watched, pollMs, asked) == No
    requires Respond(Play(l, steps, bufferMs).now, r, watched, pollMs, later) == Yes
    ensures l.clock <= arrival && r.start <= arrival < r.end
    ensures arrival in Lookup(Play(l, steps, bufferMs).ever.polls, r.route)
    ensures forall t :: t in Lookup(Play(l, steps, bufferMs).ever.polls, r.route) && t < l.clock
                    ==> t in Lookup(l.ever.polls, r.route)
    ensures Remembers(Play(l, steps, bufferMs)) && Ordered(Play(l, steps, bufferMs))
  {
    hide Respond, Remembers, Play, InOrder;
    var end, key := Play(l, steps, bufferMs), (r.route, r.stop);
    PlayRemembers(l, steps, bufferMs);
    PlayOrdered(l, steps, bufferMs);
    DefiniteAnswerIsRecordedTruth(l, r, watched, pollMs, asked);
    DefiniteAnswerIsRecordedTruth(end, r, watched, pollMs, later);
    var before, after := Lookup(l.ever.events, key), Lookup(end.ever.events, key);
    var k :| 0 <= k < |after| && r.start <= after[k] < r.end;
    assert forall j :: 0 <= j < |before| ==> before[j] == after[j];
    arrival := after[k];
    assert arrival in after;
    var old0, new0 := Lookup(l.ever.polls, r.route), Lookup(end.ever.polls, r.route);
    forall t | t in new0 && t < l.clock ensures t in old0 {
      var j :| 0 <= j < |new0| && new0[j] == t;
      assert j < |old0| && old0[j] == t;
    }
  }

  /** Whether a no can still turn into a yes, over every continuation: exactly when some of the
      window is left and the last poll inside is at most two and a half periods old. */
  lemma NoCanStillFlipIff(
      l: Log, bufferMs: nat, r: Request, watched: set<Route>, pollMs: nat, asked: int, later: int
    )
    requires Remembers(l) && Ordered(l) && r.start <= later
    requires Respond(l.now, r, watched, pollMs, asked) == No
    ensures Within(Lookup(l.now.polls, r.route), r.start, r.end) != []
    ensures (exists steps :: InOrder(l, steps, bufferMs)
                          && Respond(Play(l, steps, bufferMs).now, r, watched, pollMs, later) == Yes)
       <==> Open(l.now, r, pollMs, l.clock)
  {
    JudgeOfDefinite(l.now, r, watched, pollMs, asked);
    forall steps | InOrder(l, steps, bufferMs) && Respond(Play(l, steps, bufferMs).now, r, watched, pollMs, later) == Yes
      ensures Open(l.now, r, pollMs, l.clock)
    {
      FlipNeedsOpen(l, steps, bufferMs, r, watched, pollMs, asked, later);
    }
    if Open(l.now, r, pollMs, l.clock) {
      var steps := [Stamped(Poll(r.route, [r.stop]), l.clock)];
      assert steps[..0] == [];
      assert Play(l, steps, bufferMs) == Next(Play(l, [], bufferMs), steps[0], bufferMs);
      EarlyNoCanFlip(l, r, [r.stop], l.clock, watched, pollMs, bufferMs, asked, later);
      assert InOrder(l, steps, bufferMs);
    }
  }

  lemma FlipNeedsOpen(
      l: Log, steps: seq<Stamped>, bufferMs: nat, r: Request, watched: set<Route>, pollMs: nat, asked: int, later: int
    )
    requires Remembers(l) && Ordered(l) && InOrder(l, steps, bufferMs)
    requires Respond(l.now, r, watched, pollMs, asked) == No
    requires Respond(Play(l, steps, bufferMs).now, r, watched, pollMs, later) == Yes
    ensures Within(Lookup(l.now.polls, r.route), r.start, r.end) != []
    ensures Open(l.now, r, pollMs, l.clock)
  {
    hide Respond, Judge, Remembers, Ordered, InOrder, Within, Play;
    var end := Play(l, steps, bufferMs);
    var arrival := YesAfterNo(l, steps, bufferMs, r, watched, pollMs, asked, later);
    JudgeOfDefinite(l.now, r, watched, pollMs, asked);
    RememberedPolls(l, r, watched, pollMs, asked);
    JudgeOfDefinite(end.now, r, watched, pollMs, later);
    RememberedPolls(end, r, watched, pollMs, later);
    var polls, later0 := Lookup(l.now.polls, r.route), Lookup(end.now.polls, r.route);
    LastIsLargest(polls, r.start, r.end);
    LastIsLargest(later0, r.start, r.end);
    if r.start < l.clock {
      DefiniteCovers(later0, Lookup(end.now.events, (r.route, r.stop)), r.start, r.end, pollMs, l.clock);
      var p :| p in later0 && p < l.clock && 2 * (l.clock - p) <= 5 * pollMs;
      assert p in Lookup(l.ever.polls, r.route);
      assert p in polls || p < r.start;
    }
  }

  // ---- Runs that meet the conditions --------------------------------------------------------------------

  /** A watch of route 0 that sees no bus, from a service started at `t0`: the route's stops, and polls
      at `t0`, one second later, and (when `late`) one millisecond after a window of fifteen minutes. */
  function Sparse(t0: int, late: bool): seq<Stamped> {
    [Stamped(Refresh(0, {0}), t0), Stamped(Poll(0, []), t0), Stamped(Poll(0, []), t0 + 1000)]
    + if late then [Stamped(Poll(0, []), t0 + 900001)] else []
  }

  function StartedAt(t0: int): Log {
    Log(Started([0]), Started([0]), t0, t0)
  }

  function SparseWatch(t0: int, late: bool): Watch {
    var polls := if late then [t0, t0 + 1000, t0 + 900001] else [t0, t0 + 1000];
    Watch(map[0 := polls], map[], map[0 := {0}], polls[|polls| - 1])
  }

  /** A poll of route 0 that sees no bus. */
  lemma QuietPoll(l: Log, t: int, bufferMs: nat)
    ensures var next := Next(l, Stamped(Poll(0, []), t), bufferMs);
            && next.now == l.now.(polls := l.now.polls[0 := Lookup(l.now.polls, 0) + [t]], lastSuccess := t)
            && next.ever == l.ever.(polls := l.ever.polls[0 := Lookup(l.ever.polls, 0) + [t]], lastSuccess := t)
            && next.clock == t
  {}

  lemma SparseSteps(t0: int, late: bool, bufferMs: nat) returns (l3: Log)
    ensures Sparse(t0, false) == Sparse(t0, late)[..3] && Play(StartedAt(t0), Sparse(t0, late)[..3], bufferMs) == l3
    ensures l3.now == SparseWatch(t0, false) && l3.ever.polls == l3.now.polls && l3.clock == t0 + 1000
    ensures InOrder(StartedAt(t0), Sparse(t0, late)[..3], bufferMs)
  {
    hide Arrivals, Appended;
    var l, steps := StartedAt(t0), Sparse(t0, late)[..3];
    assert steps[..0] == [] && steps[..1][..0] == [] && steps[..2][..1] == steps[..1] && steps[..3][..2] == steps[..2];
    assert steps[..3] == steps;
    var l1 := Next(l, steps[0], bufferMs);
    var l2 := Next(l1, steps[1], bufferMs);
    l3 := Next(l2, steps[2], bufferMs);
    assert Play(l, steps[..1], bufferMs) == l1;
    assert Play(l, steps[..2], bufferMs) == l2;
    assert Play(l, steps[..3], bufferMs) == l3;
    QuietPoll(l1, t0, bufferMs);
    QuietPoll(l2, t0 + 1000, bufferMs);
    assert [] + [t0] == [t0] && [t0] + [t0 + 1000] == [t0, t0 + 1000];
    assert Lookup(l1.now.polls, 0) == [] && Lookup(l1.ever.polls, 0) == [];
    assert l2.now.polls == map[0 := [t0]] && l2.ever.polls == map[0 := [t0]];
  }

  lemma SparseRun(t0: int, late: bool, bufferMs: nat)
    ensures InOrder(StartedAt(t0), Sparse(t0, late), bufferMs)
    ensures Play(StartedAt(t0), Sparse(t0, late), bufferMs).now == SparseWatch(t0, late)
    ensures Remembers(StartedAt(t0)) && Ordered(StartedAt(t0))
    ensures var l := Play(StartedAt(t0), Sparse(t0, late), bufferMs);
            && l.ever.polls == l.now.polls && l.clock == (if late then t0 + 900001 else t0 + 1000)
            && Remembers(l) && Ordered(l)
  {
    hide Remembers, Next;
    var l, steps := StartedAt(t0), Sparse(t0, late);
    NewWatcherRemembers([0], t0, t0);
    assert Ordered(l);
    hide Ordered;
    var l3 := SparseSteps(t0, late, bufferMs);
    if late {
      assert forall k :: 0 <= k <= 3 ==> steps[..3][..k] == steps[..k];
      assert steps[..4] == steps;
      QuietPoll(l3, t0 + 900001, bufferMs);
      assert Play(l, steps, bufferMs) == Next(l3, steps[3], bufferMs);
      assert [t0, t0 + 1000] + [t0 + 900001] == [t0, t0 + 1000, t0 + 900001];
    } else {
      assert steps[..3] == steps;
    }
    PlayRemembers(l, steps, bufferMs);
    PlayOrdered(l, steps, bufferMs);
  }

  lemma SparseJudged(t0: int, late: bool)
    ensures var polls := SparseWatch(t0, late).polls[0];
            && Within(polls, t0, t0 + 900000) == [t0, t0 + 1000]
            && LatestUpto(polls, t0) == Some(t0)
            && Judge(polls, [], t0, t0 + 900000, 12000) == No
  {
    var polls := SparseWatch(t0, late).polls[0];
    assert [t0, t0 + 1000][..1] == [t0] && [t0][..0] == [];
    assert Within([t0], t0, t0 + 900000) == [t0] && LatestUpto([t0], t0) == Some(t0);
    if late {
      assert polls[..2] == [t0, t0 + 1000];
    }
    assert WidestGap(t0, [t0, t0 + 1000]) == 1000;
  }

  /** The service is healthy and answers no for a window of fifteen minutes of which it has watched
      one second: at its end no poll was recorded within two and a half periods. */
  lemma UnwatchedNo(t0: int, bufferMs: nat)
    ensures var l, r := Play(StartedAt(t0), Sparse(t0, true), bufferMs), Request(0, 0, t0, t0 + 900000, true);
            && InOrder(StartedAt(t0), Sparse(t0, true), bufferMs)
            && Serve(l.now, r, {0}, 12000, t0 + 900001) == Some(No)
            && !Watched(Lookup(l.ever.polls, 0), t0 + 900000, 12000)
  {
    hide Remembers, Ordered, InOrder, Play, Judge;
    SparseRun(t0, true, bufferMs);
    SparseJudged(t0, true);
    var polls := SparseWatch(t0, true).polls[0];
    assert forall p :: p in polls ==> p == t0 || p == t0 + 1000 || p == t0 + 900001;
  }

  /** In the same run, asked before the third poll, the no is still open: a bus seen a second later
      makes it a yes. */
  lemma OpenNo(t0: int, bufferMs: nat)
    ensures var l, r := Play(StartedAt(t0), Sparse(t0, false), bufferMs), Request(0, 0, t0, t0 + 900000, true);
            && Serve(l.now, r, {0}, 12000, t0 + 1000) == Some(No)
            && Serve(Next(l, Stamped(Poll(0, [0]), t0 + 2000), bufferMs).now, r, {0}, 12000, t0 + 2000) == Some(Yes)
  {
    hide Remembers, Ordered, InOrder, Play, Judge;
    var l, r := Play(StartedAt(t0), Sparse(t0, false), bufferMs), Request(0, 0, t0, t0 + 900000, true);
    SparseRun(t0, false, bufferMs);
    SparseJudged(t0, false);
    EarlyNoCanFlip(l, r, [0], t0 + 2000, {0}, 12000, bufferMs, t0 + 1000, t0 + 2000);
  }
}
