/** Category rules: how an observation decides one outcome of a market. */
module Rules {
  import opened Wrappers
  import Text

  datatype Metric = QueueLength | CrowdOccupancy | UniqueAttendance

  datatype Rule =
    | WeatherRule(station: string, threshold: int)
    | BusRule(route: string, direction: string, stop: string)
    | ElectionRule(candidates: seq<string>, fictional: bool)
    | CountRule(metric: Metric, location: string, least: int)
    | OtherRule(condition: string)

  datatype Observation =
    | WeatherSeen(station: string, total: int, complete: bool)
    | BusSeen(route: string, direction: string, stop: string, arrivals: seq<int>, complete: bool)
    | ElectionSeen(winner: Option<string>, final: bool, fictional: bool)
    | CountSeen(metric: Metric, location: string, value: int, complete: bool)
    | OtherSeen(outcome: Option<string>)

  datatype Resolution = Winner(outcome: nat) | Void

  const MAX_ARRIVALS := 10_000

  function OutcomeCount(rule: Rule): nat {
    if rule.ElectionRule? then |rule.candidates| else 2
  }

  datatype Category = Weather | Bus | Elections | Attendance | QueueCrowd | Other

  function CategoryOf(rule: Rule): Category {
    match rule
    case WeatherRule(_, _) => Weather
    case BusRule(_, _, _) => Bus
    case ElectionRule(_, _) => Elections
    case CountRule(metric, _, _) => if metric == UniqueAttendance then Attendance else QueueCrowd
    case OtherRule(_) => Other
  }

  predicate ValidId(id: string) {
    Text.Within(id, 1, 120)
  }

  /** The published rule's identifiers, bounds and candidates. */
  predicate ValidRule(rule: Rule) {
    match rule
    case WeatherRule(station, threshold) => ValidId(station) && 1 <= threshold <= 1_000_000
    case BusRule(route, direction, stop) => ValidId(route) && ValidId(direction) && ValidId(stop)
    case ElectionRule(candidates, fictional) =>
      && fictional && 2 <= |candidates| <= 8
      && (forall i :: 0 <= i < |candidates| ==> ValidId(candidates[i]))
      && forall i, j :: 0 <= i < j < |candidates| ==> candidates[i] != candidates[j]
    case CountRule(_, location, least) => ValidId(location) && 1 <= least <= 1_000_000
    case OtherRule(condition) => Text.Within(condition, 1, 4000)
  }

  function Binary(yes: bool): Option<Resolution> {
    Some(Winner(if yes then 0 else 1))
  }

  /** The first position of `x`. */
  function Position(xs: seq<string>, x: string): (r: Option<nat>)
    ensures r.Some? ==> r.value < |xs| && xs[r.value] == x && x !in xs[..r.value]
    ensures r.None? ==> x !in xs
  {
    if xs == [] then None
    else if xs[0] == x then Some(0)
    else
      match Position(xs[1..], x)
      case None => None
      case Some(i) =>
        assert xs[..i + 1] == [xs[0]] + xs[1..][..i];
        Some(i + 1)
  }

  /** `Ok(None)` means the evidence is not final; `Err` that it does not fit the rule. */
  function Evaluate(rule: Rule, seen: Observation, start: int, end: int): Result<Option<Resolution>> {
    match (rule, seen)
    case (WeatherRule(station, threshold), WeatherSeen(s, total, complete)) =>
      if station != s || total < 0 then Err(Invalid)
      else Ok(if complete then Binary(total >= threshold) else None)
    case (BusRule(route, direction, stop), BusSeen(r, d, s, arrivals, complete)) =>
      if route != r || direction != d || stop != s || |arrivals| > MAX_ARRIVALS then Err(Invalid)
      else Ok(if complete then Binary(exists t :: t in arrivals && start <= t < end) else None)
    case (ElectionRule(candidates, _), ElectionSeen(winner, final, fictional)) =>
      if !fictional then Err(Invalid)
      else if !final then Ok(None)
      else if winner.None? then Ok(Some(Void))
      else
        (match Position(candidates, winner.value)
         case Some(i) => Ok(Some(Winner(i)))
         case None => Err(Invalid))
    case (CountRule(metric, location, least), CountSeen(m, l, value, complete)) =>
      if metric != m || location != l || value < 0 then Err(Invalid)
      else Ok(if complete then Binary(value >= least) else None)
    case (OtherRule(_), OtherSeen(outcome)) =>
      if outcome.None? then Ok(None)
      else
        (match Position(["yes", "no"], outcome.value)
         case Some(i) => Ok(Some(Winner(i)))
         case None => Err(Invalid))
    case _ => Err(Invalid)
  }

  /** The observation is of the rule's kind, names what the rule names, has possible values, and names
      a known winner or answer if it names one. */
  ghost predicate Fits(rule: Rule, seen: Observation) {
    match rule
    case WeatherRule(station, _) => seen.WeatherSeen? && seen.station == station && 0 <= seen.total
    case BusRule(route, direction, stop) =>
      && seen.BusSeen? && seen.route == route && seen.direction == direction && seen.stop == stop
      && |seen.arrivals| <= 10_000
    case ElectionRule(candidates, _) =>
      seen.ElectionSeen? && seen.fictional && (seen.final && seen.winner.Some? ==> seen.winner.value in candidates)
    case CountRule(metric, location, _) =>
      seen.CountSeen? && seen.metric == metric && seen.location == location && 0 <= seen.value
    case OtherRule(_) =>
      seen.OtherSeen? && (seen.outcome == None || seen.outcome == Some("yes") || seen.outcome == Some("no"))
  }

  /** The observation says that it is complete. */
  ghost predicate Complete(seen: Observation) {
    match seen
    case WeatherSeen(_, _, complete) => complete
    case BusSeen(_, _, _, _, complete) => complete
    case ElectionSeen(_, final, _) => final
    case CountSeen(_, _, _, complete) => complete
    case OtherSeen(outcome) => outcome.Some?
  }

  /** Which side a fitting, complete observation decides for: of the two sides yes (0) and no (1), yes
      exactly when the reading reaches the threshold, an arrival lies inside [start, end), or the answer
      is yes; of candidates, the named one. */
  ghost predicate DecidesFor(rule: Rule, seen: Observation, start: int, end: int, outcome: nat)
    requires Fits(rule, seen)
  {
    match rule
    case WeatherRule(_, threshold) =>
      (outcome == 0 && threshold <= seen.total) || (outcome == 1 && seen.total < threshold)
    case BusRule(_, _, _) =>
      || (outcome == 0 && exists k :: 0 <= k < |seen.arrivals| && start <= seen.arrivals[k] < end)
      || (outcome == 1 && forall k :: 0 <= k < |seen.arrivals| ==> seen.arrivals[k] < start || end <= seen.arrivals[k])
    case ElectionRule(candidates, _) =>
      && outcome < |candidates| && seen.winner == Some(candidates[outcome])
      && forall k :: 0 <= k < outcome ==> candidates[k] != candidates[outcome]
    case CountRule(_, _, least) =>
      (outcome == 0 && least <= seen.value) || (outcome == 1 && seen.value < least)
    case OtherRule(_) =>
      (outcome == 0 && seen.outcome == Some("yes")) || (outcome == 1 && seen.outcome == Some("no"))
  }

  /** An election that ended without a sole winner. */
  ghost predicate NoSoleWinner(seen: Observation) {
    seen.ElectionSeen? && seen.winner.None?
  }

  /** What `result` an observation means: none while it is incomplete, void without a sole winner, and
      otherwise the side it decides for. */
  ghost predicate Means(rule: Rule, seen: Observation, start: int, end: int, result: Option<Resolution>) {
    && Fits(rule, seen)
    && match result
       case None => !Complete(seen)
       case Some(Void) => Complete(seen) && NoSoleWinner(seen)
       case Some(Winner(o)) => Complete(seen) && DecidesFor(rule, seen, start, end, o)
  }

  lemma {:induction false} PositionFinds(xs: seq<string>, x: string)
    ensures Position(xs, x).Some? <==> x in xs
  {
    if xs != [] {
      PositionFinds(xs[1..], x);
    }
  }

  lemma YesOrNo(answer: string)
    ensures Position(["yes", "no"], answer) == if answer == "yes" then Some(0) else if answer == "no" then Some(1) else None
  {
    assert ["yes", "no"][1..] == ["no"];
    assert "yes"[0] != "no"[0];
    PositionFinds(["yes", "no"], answer);
  }

  lemma PositionIsFirst(xs: seq<string>, i: nat)
    requires i < |xs| && forall k :: 0 <= k < i ==> xs[k] != xs[i]
    ensures Position(xs, xs[i]) == Some(i)
  {
    PositionFinds(xs, xs[i]);
    var p := Position(xs, xs[i]).value;
    assert forall k :: 0 <= k < p ==> xs[..p][k] == xs[k];
  }

  lemma ArrivesInside(arrivals: seq<int>, start: int, end: int)
    ensures (exists t :: t in arrivals && start <= t < end)
       <==> exists k :: 0 <= k < |arrivals| && start <= arrivals[k] < end
  {
    if k :| 0 <= k < |arrivals| && start <= arrivals[k] < end {
      assert arrivals[k] in arrivals;
    }
  }

  /** For every rule and observation: evidence is refused exactly when it does not fit, and otherwise
      evaluates to the one result it means. */
  lemma EvaluateMeans(rule: Rule, seen: Observation, start: int, end: int)
    ensures Evaluate(rule, seen, start, end).Ok? <==> Fits(rule, seen)
    ensures Evaluate(rule, seen, start, end).Err? ==> Evaluate(rule, seen, start, end).error == Invalid
    ensures forall r :: Evaluate(rule, seen, start, end) == Ok(r) <==> Means(rule, seen, start, end, r)
  {
    match (rule, seen)
    case (BusRule(_, _, _), BusSeen(_, _, _, arrivals, _)) =>
      ArrivesInside(arrivals, start, end);
    case (ElectionRule(candidates, _), ElectionSeen(winner, _, _)) =>
      if winner.Some? {
        PositionFinds(candidates, winner.value);
        forall o | 0 <= o < |candidates| && winner.value == candidates[o]
          && forall k :: 0 <= k < o ==> candidates[k] != candidates[o]
          ensures Position(candidates, winner.value) == Some(o)
        {
          PositionIsFirst(candidates, o);
        }
      }
    case (OtherRule(_), OtherSeen(outcome)) =>
      if outcome.Some? {
        YesOrNo(outcome.value);
      }
    case _ =>
  }

  /** No observation decides for two sides. */
  lemma DecidesForOne(rule: Rule, seen: Observation, start: int, end: int, a: nat, b: nat)
    requires Fits(rule, seen) && DecidesFor(rule, seen, start, end, a) && DecidesFor(rule, seen, start, end, b)
    ensures a == b
  {
    if rule.ElectionRule? {
      assert rule.candidates[a] == rule.candidates[b];
    }
  }

  /** Under a published rule each side can win: thresholds are reached and missed by possible readings,
      and candidates are told apart by their names. */
  lemma EveryOutcomeCanWin(rule: Rule, start: int, end: int, o: nat) returns (seen: Observation)
    requires ValidRule(rule) && start < end && o < OutcomeCount(rule)
    ensures Fits(rule, seen) && Complete(seen) && DecidesFor(rule, seen, start, end, o)
    ensures Evaluate(rule, seen, start, end) == Ok(Some(Winner(o)))
  {
    match rule {
      case WeatherRule(station, threshold) =>
        seen := WeatherSeen(station, if o == 0 then threshold else 0, true);
      case BusRule(route, direction, stop) =>
        seen := BusSeen(route, direction, stop, if o == 0 then [start] else [], true);
        assert o == 0 ==> seen.arrivals[0] == start;
      case ElectionRule(candidates, _) =>
        seen := ElectionSeen(Some(candidates[o]), true, true);
      case CountRule(metric, location, least) =>
        seen := CountSeen(metric, location, if o == 0 then least else 0, true);
      case OtherRule(_) =>
        seen := OtherSeen(Some(if o == 0 then "yes" else "no"));
    }
    EvaluateMeans(rule, seen, start, end);
    assert Means(rule, seen, start, end, Some(Winner(o)));
  }

  ghost predicate InOutcomes(r: Resolution, outcomes: nat) {
    r.Winner? ==> r.outcome < outcomes
  }

  /** A decided result always names one of the published outcomes; and evidence that says it is
      incomplete never decides anything. */
  lemma EvaluateNamesPublishedOutcome(rule: Rule, seen: Observation, start: int, end: int)
    requires Evaluate(rule, seen, start, end).Ok?
    ensures var r := Evaluate(rule, seen, start, end).value;
            && (r.Some? ==> InOutcomes(r.value, OutcomeCount(rule)))
            && (seen.WeatherSeen? || seen.BusSeen? || seen.CountSeen? ==> (r.Some? <==> seen.complete))
            && (seen.ElectionSeen? ==> (r.Some? <==> seen.final))
  {}
}
