/** The worker: which instances a pass selects, and what it does with each: evidence first, then one
    settlement batch. Its passes are legal runs of the exchange. */
module Worker {
  import opened Wrappers
  import opened PricingEngine
  import opened Fee
  import opened Books
  import opened Rules
  import opened Exchange
  import opened Invariant
  import opened Settlement
  import opened Transactions
  import opened Evolution
  import opened Runs
  import opened Audit
  import opened Theorems
  import opened Submissions
  import opened Database
  import opened Effects
  import opened Scheduler
  import Schedule
  import Text

  // ---- Simulated observations ------------------------------------------------------------------------

  /** The demo's deterministic observation; `sample` is a byte of a hash. */
  function Simulated(rule: Rule, sample: nat, start: int, end: int): Observation
    requires ValidRule(rule)
  {
    match rule
    case WeatherRule(station, threshold) => WeatherSeen(station, if sample % 2 == 0 then threshold + 100 else 0, true)
    case BusRule(route, direction, stop) =>
      BusSeen(route, direction, stop, if sample % 2 == 0 then [start + Quotient(end - start, 2)] else [], true)
    case ElectionRule(candidates, _) => ElectionSeen(Some(candidates[sample % |candidates|]), true, true)
    case CountRule(metric, location, least) =>
      CountSeen(metric, location, least + sample % 21 - (if least < 10 then least else 10), true)
    case OtherRule(_) => OtherSeen(Some(if sample % 2 == 0 then "yes" else "no"))
  }

  /** Which side the demo's sample picks. */
  function Picked(rule: Rule, sample: nat): nat
    requires ValidRule(rule)
  {
    match rule
    case ElectionRule(candidates, _) => sample % |candidates|
    case CountRule(_, _, least) => if (if least < 10 then least else 10) <= sample % 21 then 0 else 1
    case _ => sample % 2
  }

  /** A simulated observation always fits its rule and decides for the side its sample picks; a valid
      window makes an even sample of a bus rule an arrival inside it. */
  lemma SimulatedDecides(rule: Rule, sample: nat, start: int, end: int)
    requires ValidRule(rule) && start < end
    ensures var seen := Simulated(rule, sample, start, end);
            && Fits(rule, seen) && Complete(seen)
            && DecidesFor(rule, seen, start, end, Picked(rule, sample))
            && Evaluate(rule, seen, start, end) == Ok(Some(Winner(Picked(rule, sample))))
  {
    var seen := Simulated(rule, sample, start, end);
    EvaluateMeans(rule, seen, start, end);
    if rule.BusRule? && sample % 2 == 0 {
      var t := start + Quotient(end - start, 2);
      assert seen.arrivals[0] == t && start <= t < end;
    }
    assert Means(rule, seen, start, end, Some(Winner(Picked(rule, sample))));
  }

  // ---- The selected evidence ------------------------------------------------------------------------------

  /** The evaluated result of the evidence row the instance points at. */
  function SelectedResult(mk: Market): Option<Resolution> {
    match mk.row.evidenceId
    case None => None
    case Some(key) =>
      (match FindEvent(mk.evidence, key)
       case Some(x) => x.result
       case None => None)
  }

  ghost predicate OneSource(mk: Market, source: string) {
    |mk.evidence| <= 1 && forall k :: 0 <= k < |mk.evidence| ==> mk.evidence[k].key.source == source
  }

  /** The instance selects its highest revision, event keys are distinct, and an authority's market
      has at most its one statement. */
  ghost predicate SelectionOk(mk: Market) {
    && mk.row.evidenceId == SelectedKey(mk.evidence)
    && (forall i, j :: 0 <= i < j < |mk.evidence| ==> mk.evidence[i].key != mk.evidence[j].key)
    && (mk.row.terms.authority == Creator ==> OneSource(mk, CREATOR_SOURCE))
    && (mk.row.terms.authority == Resolver ==> OneSource(mk, RESOLVER_SOURCE))
  }

  ghost predicate SelectionsOk(db: Db) {
    forall i :: i in db.markets ==> SelectionOk(db.markets[i])
  }

  /** The row and evidence columns the selection depends on. */
  ghost predicate SameSelection(mk: Market, next: Market) {
    next.evidence == mk.evidence && next.row.evidenceId == mk.row.evidenceId && next.row.terms == mk.row.terms
  }

  lemma SameSelectionOk(mk: Market, next: Market)
    requires SelectionOk(mk) && SameSelection(mk, next)
    ensures SelectionOk(next)
  {}

  lemma ObservedSelection(mk: Market, input: EvidenceInput, demo: bool, now: int)
    requires SelectionOk(mk) && ObserveMarket(mk, input, demo, now).Ok?
    ensures SelectionOk(ObserveMarket(mk, input, demo, now).value)
  {
    hide Evaluate, HasRevision, Latest;
  }

  lemma StatedSelection(mk: Market, x: Evidence)
    requires SelectionOk(mk) && mk.evidence == []
    requires mk.row.terms.authority == Creator ==> x.key.source == CREATOR_SOURCE
    requires mk.row.terms.authority == Resolver ==> x.key.source == RESOLVER_SOURCE
    ensures SelectionOk(WithEvidence(mk, x, Some(x.key)))
  {
    var next := WithEvidence(mk, x, Some(x.key));
    assert next.evidence == [x] && [x][..0] == [];
  }

  lemma NoStatementYet(mk: Market, source: string)
    requires OneSource(mk, source) && !HasSource(mk.evidence, source)
    ensures mk.evidence == []
  {
    var stated := if mk.evidence != [] then mk.evidence[0].key.source else source;
    assert stated == source;
  }

  lemma CreatorSelection(mk: Market, submitter: UserId, outcome: nat, event: string, signed: bool, now: int)
    requires SelectionOk(mk) && CreatorResolves(mk, submitter, outcome, event, signed, now).Ok?
    ensures SelectionOk(CreatorResolves(mk, submitter, outcome, event, signed, now).value)
  {
    hide SelectedKey;
    NoStatementYet(mk, CREATOR_SOURCE);
    var key := EventKey(CREATOR_SOURCE, event);
    StatedSelection(mk, Evidence(key, 0, now, Stated(outcome), Some(Winner(outcome))));
  }

  lemma ResolverSelection(mk: Market, outcome: nat, event: string, replay: bool, now: int)
    requires SelectionOk(mk) && mk.row.terms.authority == Resolver
    requires ResolverAnswers(mk, outcome, event, replay, now).Ok?
    ensures SelectionOk(ResolverAnswers(mk, outcome, event, replay, now).value)
  {
    hide SelectedKey;
    if !HasSource(mk.evidence, RESOLVER_SOURCE) {
      NoStatementYet(mk, RESOLVER_SOURCE);
      var key := EventKey(RESOLVER_SOURCE, event);
      StatedSelection(mk, Evidence(key, 0, now, Stated(outcome), Some(Winner(outcome))));
    }
  }

  lemma SettleKeepsSelection(db: Db, id: MarketId, batch: seq<UserId>, now: int)
    requires SettleTx(db, id, batch, now).Ok?
    ensures var next := SettleTx(db, id, batch, now).value;
            id in db.markets && id in next.markets && SameSelection(db.markets[id], next.markets[id])
            && next.markets == db.markets[id := next.markets[id]]
  {
    hide PayClaims, Drain, Unclaimed, FinalResult;
    var mk := Finalize(db.markets[id], now);
    if mk.row.phase == Resolving {
      ClaimsContinue(Settling(db.books, mk), id, batch, {});
    }
  }

  predicate Records(op: Op) {
    op.ObserveOp? || op.CreatorOp? || op.ResolverOp?
  }

  lemma OthersKeepSelections(e: Engine, db: Db, op: Op, now: int)
    requires !Records(op) && !op.TradeOp? && Apply(e, db, op, now).Ok?
    ensures var next := Apply(e, db, op, now).value;
            && (forall i :: i in db.markets && i in next.markets ==> SameSelection(db.markets[i], next.markets[i]))
            && (forall i :: i in next.markets && i !in db.markets ==> op.CreateOp? && next.markets[i] == NewMarket(op.terms))
  {
    hide SettleTx, Post, SlotTaken, SpecValid, ValidRule, CategoryFits, ValidName, Text.Within, Purgeable, Due;
    if op.SettleOp? {
      SettleKeepsSelection(db, op.market, op.batch, now);
    }
  }

  lemma TradeKeepSelections(e: Engine, db: Db, op: Op, now: int)
    requires op.TradeOp? && Apply(e, db, op, now).Ok?
    ensures var next := Apply(e, db, op, now).value;
            next.markets.Keys == db.markets.Keys && forall i :: i in db.markets ==> SameSelection(db.markets[i], next.markets[i])
  {
    hide Recheck, Fund, Post, ParseMicros;
  }

  lemma RecordKeepsSelection(e: Engine, db: Db, op: Op, now: int)
    requires Records(op) && SelectionsOk(db) && Legal(db, op, now) && Apply(e, db, op, now).Ok?
    ensures SelectionsOk(Apply(e, db, op, now).value)
  {
    hide SelectionOk, InputBounded, ObserveMarket, CreatorResolves, ResolverAnswers;
    var mk := db.markets[op.market];
    match op
    case ObserveOp(_, input, demo) => ObservedSelection(mk, input, demo, now);
    case CreatorOp(_, submitter, outcome, event, _, signed) => CreatorSelection(mk, submitter, outcome, event, signed, now);
    case ResolverOp(_, outcome, event, replay, _) => ResolverSelection(mk, outcome, event, replay, now);
  }

  lemma NewSelection(terms: Terms)
    ensures SelectionOk(NewMarket(terms))
  {}

  lemma ApplyKeepsSelections(e: Engine, db: Db, op: Op, now: int)
    requires SelectionsOk(db) && Legal(db, op, now) && Apply(e, db, op, now).Ok?
    ensures SelectionsOk(Apply(e, db, op, now).value)
  {
    hide SelectionOk, Apply, Legal;
    var next := Apply(e, db, op, now).value;
    if Records(op) {
      RecordKeepsSelection(e, db, op, now);
    } else {
      if op.TradeOp? {
        TradeKeepSelections(e, db, op, now);
      } else {
        OthersKeepSelections(e, db, op, now);
      }
      forall i | i in next.markets ensures SelectionOk(next.markets[i]) {
        if i in db.markets {
          SameSelectionOk(db.markets[i], next.markets[i]);
        } else {
          NewSelection(op.terms);
        }
      }
    }
  }

  lemma {:induction false} RunKeepsSelections(e: Engine, s: State, steps: seq<Step>)
    requires SelectionsOk(s.db) && LegalRun(e, s, steps)
    ensures SelectionsOk(Run(e, s, steps).db)
  {
    hide SelectionsOk, Apply, Legal;
    if steps != [] {
      var n := |steps| - 1;
      PrefixIsLegal(e, s, steps, n);
      RunKeepsSelections(e, s, steps[..n]);
      var before := Run(e, s, steps[..n]);
      if Apply(e, before.db, steps[n].op, steps[n].now).Ok? {
        ApplyKeepsSelections(e, before.db, steps[n].op, steps[n].now);
      }
    }
  }

  // ---- Which instances are due ---------------------------------------------------------------------------

  /** The selection of a pass. */
  predicate DueSelected(mk: Market, now: int, demo: bool) {
    var row, t := mk.row, mk.row.terms;
    || row.phase == Resolving
    || (row.phase == Closed
        && ((t.simulated && demo && row.evidenceId.None? && t.observationEnd <= now)
            || (t.finalizeAfter <= now && (t.deadline <= now || SelectedResult(mk).Some?))
            || (t.finalizeAfter <= now && row.evidenceId.None? && t.authority == Resolver)))
  }

  lemma {:induction false} SelectedIsFound(evidence: seq<Evidence>, x: Evidence)
    requires x in evidence
    requires forall i, j :: 0 <= i < j < |evidence| ==> evidence[i].key != evidence[j].key
    ensures FindEvent(evidence, x.key) == Some(x)
  {
    var n := |evidence| - 1;
    if evidence[n] != x {
      assert x in evidence[..n];
      SelectedIsFound(evidence[..n], x);
    }
  }

  /** The pointed-at result is the one settlement will use. */
  lemma SelectedResultIsLatest(mk: Market)
    requires SelectionOk(mk)
    ensures SelectedResult(mk) == if Latest(mk.evidence).Some? then Latest(mk.evidence).value.result else None
  {
    LatestIsHighest(mk.evidence);
    if mk.evidence != [] {
      SelectedIsFound(mk.evidence, Latest(mk.evidence).value);
    }
  }

  /** A selected instance is past its observation window; every instance that can be finalized or is being
      settled is selected; and a selected closed one can be finalized now, or has no evidence yet and a
      source to ask for it. So nothing waits forever, and nothing that must wait takes a place. */
  lemma SelectionIsExact(e: Engine, s: State, id: MarketId, demo: bool)
    requires SoundEngine(e) && Reachable(e, s) && id in s.db.markets
    ensures var mk := s.db.markets[id];
            var t := mk.row.terms;
            && (DueSelected(mk, s.clock, demo) ==> t.observationEnd <= s.clock)
            && (mk.row.phase == Resolving ==> DueSelected(mk, s.clock, demo))
            && (mk.row.phase == Open || Terminal(mk.row) ==> !DueSelected(mk, s.clock, demo))
            && (mk.row.phase == Closed ==>
                  (DueSelected(mk, s.clock, demo)
                   <==> FinalResult(mk, s.clock).Some?
                        || (mk.evidence == [] && t.simulated && demo && t.observationEnd <= s.clock)
                        || (mk.evidence == [] && t.authority == Resolver && t.finalizeAfter <= s.clock)))
  {
    hide SoundEngine, Reachable, Inv, Audited, Latest, SelectionOk, DueSelected, FinalResult, MarketOk;
    SelectionIsKept(e, s, id);
    ReachableIsSound(e, s);
    MarketIsKept(e, s.db, s.clock, id);
    RowIsTimely(e, s.db.markets[id], s.db.books.balances[Reserve(id)], s.clock);
    DueIff(s.db.markets[id], s.clock, demo);
  }

  lemma SelectionIsKept(e: Engine, s: State, id: MarketId)
    requires SoundEngine(e) && Reachable(e, s) && id in s.db.markets
    ensures SelectionOk(s.db.markets[id])
  {
    hide Run, LegalRun, SoundEngine, SelectionOk;
    var steps :| LegalRun(e, Genesis(), steps) && Run(e, Genesis(), steps) == s;
    assert SelectionsOk(Genesis().db);
    RunKeepsSelections(e, Genesis(), steps);
  }

  lemma RowIsTimely(e: Engine, mk: Market, reserve: int, clock: int)
    requires MarketOk(e, mk, reserve, clock)
    ensures PhaseOk(mk.row, clock) && TimesOrdered(mk.row.terms)
  {}

  lemma DueIff(mk: Market, now: int, demo: bool)
    requires SelectionOk(mk) && PhaseOk(mk.row, now) && TimesOrdered(mk.row.terms)
    ensures var t := mk.row.terms;
            && (DueSelected(mk, now, demo) ==> t.observationEnd <= now)
            && (mk.row.phase == Resolving ==> DueSelected(mk, now, demo))
            && (mk.row.phase == Open || Terminal(mk.row) ==> !DueSelected(mk, now, demo))
            && (mk.row.phase == Closed ==>
                  (DueSelected(mk, now, demo)
                   <==> FinalResult(mk, now).Some?
                        || (mk.evidence == [] && t.simulated && demo && t.observationEnd <= now)
                        || (mk.evidence == [] && t.authority == Resolver && t.finalizeAfter <= now)))
  {
    hide Latest, SelectionOk, SelectedResult;
    SelectedResultIsLatest(mk);
    PointsAtNothing(mk);
    LatestIsRecorded(mk.evidence);
  }

  lemma PointsAtNothing(mk: Market)
    requires SelectionOk(mk)
    ensures mk.row.evidenceId.None? <==> mk.evidence == []
  {
    LatestIsHighest(mk.evidence);
  }

  // ---- Passes -------------------------------------------------------------------------------------------------

  /** `db` is where the run of `steps` from `start` leads. */
  ghost predicate Follows(e: Engine, start: State, steps: seq<Step>, db: Db, now: int) {
    LegalRun(e, start, steps) && Run(e, start, steps).db == db && Run(e, start, steps).clock <= now
  }

  function Outcome(e: Engine, db: Db, step: Step): Db {
    match Apply(e, db, step.op, step.now)
    case Ok(next) => next
    case Err(_) => db
  }

  lemma FollowOn(e: Engine, start: State, steps: seq<Step>, db: Db, step: Step)
    requires Follows(e, start, steps, db, step.now) && Legal(db, step.op, step.now)
    ensures Follows(e, start, steps + [step], Outcome(e, db, step), step.now)
  {
    hide Legal, Apply, Run, LegalRun;
    OneStep(e, Run(e, start, steps), step);
    RunsJoin(e, start, steps, [step]);
  }

  lemma FollowNothing(e: Engine, start: State)
    ensures Follows(e, start, [], start.db, start.clock)
  {}

  lemma FollowLater(e: Engine, start: State, steps: seq<Step>, db: Db, now: int, later: int)
    requires Follows(e, start, steps, db, now) && now <= later
    ensures Follows(e, start, steps, db, later)
  {}

  /** The clock a run starts from matters to nothing but its own end. */
  lemma {:induction false} EarlierStart(e: Engine, db: Db, early: int, late: int, steps: seq<Step>)
    requires early <= late && LegalRun(e, State(db, late), steps)
    ensures LegalRun(e, State(db, early), steps)
    ensures Run(e, State(db, early), steps).db == Run(e, State(db, late), steps).db
    ensures Run(e, State(db, early), steps).clock <= Run(e, State(db, late), steps).clock
    ensures steps != [] ==> Run(e, State(db, early), steps) == Run(e, State(db, late), steps)
  {
    hide Apply, Legal;
    if steps != [] {
      var n := |steps| - 1;
      PrefixIsLegal(e, State(db, late), steps, n);
      EarlierStart(e, db, early, late, steps[..n]);
      forall k | 0 <= k < |steps| ensures LegalStep(Run(e, State(db, early), steps[..k]), steps[k]) {
        if k < n {
          assert steps[..n][..k] == steps[..k];
          assert LegalStep(Run(e, State(db, early), steps[..n][..k]), steps[..n][k]);
        }
      }
    }
  }

  lemma FollowOthers(e: Engine, start: State, steps: seq<Step>, db: Db, now: int, others: seq<Step>)
    requires Follows(e, start, steps, db, now) && LegalRun(e, State(db, now), others)
    ensures var end := Run(e, State(db, now), others); Follows(e, start, steps + others, end.db, end.clock)
  {
    hide Run, LegalRun;
    EarlierStart(e, db, Run(e, start, steps).clock, now, others);
    RunsJoin(e, start, steps, others);
  }

  lemma StepEvolves(e: Engine, db: Db, clock: int, step: Step)
    requires SoundEngine(e) && Inv(e, db, clock)
    ensures Evolves(db, Outcome(e, db, step))
  {
    hide SoundEngine, Inv, Evolves, Apply;
    if Apply(e, db, step.op, step.now).Ok? {
      ApplyEvolves(e, db, clock, step.op, step.now);
    } else {
      NothingChanges(e, State(db, clock));
    }
  }

  lemma IdleSettlement(db: Db, id: MarketId, batch: seq<UserId>, now: int)
    requires id in db.markets ==> Finalize(db.markets[id], now).row.phase != Resolving
    requires id in db.markets ==> SettleTx(db, id, batch, now).Ok?
    ensures id in db.markets ==> SettleTx(db, id, batch, now) == Ok(db)
  {}

  /** The observation of a demo market, made after its window; its JSON text takes `size` bytes. */
  function SimulatedInput(t: Terms, sample: nat, size: nat): EvidenceInput
    requires ValidRule(t.rule)
  {
    EvidenceInput(t.source, "simulated", 0, t.observationStart, t.observationEnd,
                  Simulated(t.rule, sample, t.observationStart, t.observationEnd),
                  "Deterministic demo observation", size)
  }

  /** Text that neither starts nor ends with white space. */
  lemma Printed(s: string)
    requires s != "" && !Text.IsSpace(s[0]) && !Text.IsSpace(s[|s| - 1])
    requires forall i :: 0 <= i < |s| ==> s[i] < '\U{80}'
    ensures Text.Trim(s) == s && Text.Bytes(s) == |s|
  {
    Schedule.AsciiBytes(s);
  }

  /** The demo's observation is accepted: recorded for a closed market without evidence, of which it
      decides the side that the sample picks. */
  lemma SimulatedIsRecorded(db: Db, id: MarketId, sample: nat, size: nat, demo: bool, now: int)
    requires id in db.markets && db.markets[id].row.phase == Closed && db.markets[id].evidence == []
    requires var t := db.markets[id].row.terms;
             && ValidRule(t.rule) && TimesOrdered(t) && t.authority == Simulator && t.observationEnd <= now
             && ((demo && t.simulated && t.source == SIMULATOR_SOURCE) || now < t.deadline)
    requires size <= 65536
    ensures var t, observed := db.markets[id].row.terms, ObserveTx(db, id, SimulatedInput(db.markets[id].row.terms, sample, size), demo, now);
            && observed.Ok? && id in observed.value.markets
            && |observed.value.markets[id].evidence| == 1
            && observed.value.markets[id].evidence[0].result == Some(Winner(Picked(t.rule, sample)))
  {
    hide ObserveTx, Text.Bytes, Text.Trim, ValidRule, Means;
    var t := db.markets[id].row.terms;
    var input := SimulatedInput(t, sample, size);
    Printed("simulated");
    Printed("Deterministic demo observation");
    SimulatedDecides(t.rule, sample, t.observationStart, t.observationEnd);
    ObservationEffects(db, id, input, demo, now);
    EvaluateMeans(t.rule, input.observation, t.observationStart, t.observationEnd);
  }

  /** An instance as a pass selected it. */
  datatype Chosen = Chosen(id: MarketId, row: Instance, sample: nat, size: nat, answer: Option<nat>)

  ghost predicate ChosenOk(db: Db, c: Chosen, selected: int) {
    && ValidRule(c.row.terms.rule) && c.row.terms.observationEnd <= selected
    && Reserve(c.id) in db.books.balances
    && (c.id in db.markets ==> c.row.terms == db.markets[c.id].row.terms)
  }

  /** A selected instance keeps its terms, or is purged, and its id is not used again. */
  lemma ChosenStays(db: Db, next: Db, c: Chosen, selected: int)
    requires ChosenOk(db, c, selected) && Evolves(db, next)
    ensures ChosenOk(next, c, selected)
  {}

  // ---- The others ---------------------------------------------------------------------------------------------

  /** Everybody else: what their transactions do before each step of the worker, and how much time
      passes there. */
  datatype Others = Others(steps: (nat, State) -> seq<Step>, pause: nat -> nat)

  /** What the others do at their `k`th chance, when it comes at `at` after the run of `before`. */
  ghost function Meantime(e: Engine, start: State, before: seq<Step>, others: Others, k: nat, at: int): seq<Step> {
    others.steps(k, State(Run(e, start, before).db, at))
  }

  /** The worker's own step towards a verdict: the demo's observation of its one-time markets that are
      closed without evidence, or the answer that the resolver gave for such a market of a series. */
  function EvidenceSteps(c: Chosen, demo: bool, live: bool, now: int, selected: int): seq<Step>
    requires ValidRule(c.row.terms.rule)
  {
    var t := c.row.terms;
    if c.row.phase != Closed || c.row.evidenceId.Some? then []
    else if t.authority == Simulator && t.simulated && demo && !live then
      [Step(ObserveOp(c.id, SimulatedInput(t, c.sample, c.size), demo), now)]
    else if t.authority == Resolver && c.answer.Some? then
      [Step(ResolverOp(c.id, c.answer.value, "resolver", demo && t.simulated, selected), now)]
    else []
  }

  /** One turn of the worker: `at` and `now` are the times of its two steps. */
  datatype Turn = Turn(at: int, now: int, batch: seq<UserId>)

  /** The turn makes its evidence step, if any, and then settles one batch exactly when the market is
      final by then, with whatever the others do before each; `count` claims are paid. */
  ghost predicate TurnMade(
      e: Engine, start: State, before: seq<Step>, after: seq<Step>, c: Chosen, selected: int, demo: bool, live: bool,
      others: Others, k: nat, began: int, turn: Turn, count: nat
    )
    requires ValidRule(c.row.terms.rule)
  {
    var first := before + Meantime(e, start, before, others, k, began);
    var known := first + EvidenceSteps(c, demo, live, turn.at, selected);
    var ready := known + Meantime(e, start, known, others, k + 1, turn.at);
    var db := Run(e, start, ready).db;
    && began <= turn.at <= turn.now
    && if c.id in db.markets && Finalize(db.markets[c.id], turn.now).row.phase == Resolving then
      && after == ready + [Step(SettleOp(c.id, turn.batch), turn.now)]
      && ValidBatch(Finalize(db.markets[c.id], turn.now), turn.batch) && count == |turn.batch|
    else after == ready && count == 0
  }

  ghost predicate LegalOthers(e: Engine, others: Others) {
    forall k, s :: LegalRun(e, s, others.steps(k, s))
  }

  /** What happens before the worker's next step. */
  method Meanwhile(
      store: Store, others: Others, turn: nat, at: int, ghost start: State, ghost before: seq<Step>
    ) returns (now: int, ghost steps: seq<Step>)
    requires store.Valid() && store.clock <= at && LegalOthers(store.engine, others)
    requires Follows(store.engine, start, before, store.State(), at)
    modifies store
    ensures store.Valid() && store.clock <= now && at <= now
    ensures Follows(store.engine, start, steps, store.State(), now) && before <= steps
    ensures steps == before + Meantime(store.engine, start, before, others, turn, at)
    ensures Evolves(old(store.State()), store.State())
  {
    hide SoundEngine, Inv, Follows, Evolves, Run, LegalRun;
    ghost var db := store.State();
    FollowsTo(store.engine, start, before, db, at);
    var done := others.steps(turn, State(store.State(), at));
    FollowOthers(store.engine, start, before, db, at, done);
    store.Absorb(done, at);
    steps := before + done;
    now := store.clock + others.pause(turn);
    FollowLater(store.engine, start, steps, store.State(), store.clock, now);
  }

  lemma FollowsTo(e: Engine, start: State, steps: seq<Step>, db: Db, now: int)
    requires Follows(e, start, steps, db, now)
    ensures Run(e, start, steps).db == db
  {}

  // ---- One instance -------------------------------------------------------------------------------------------

  /** The demo's own observation, for its one-time markets. */
  method Simulate(
      store: Store, c: Chosen, selected: int, demo: bool, now: int, ghost start: State, ghost before: seq<Step>
    )
    returns (ghost steps: seq<Step>)
    requires store.Valid() && store.clock <= now && selected <= now && ChosenOk(store.State(), c, selected)
    requires Follows(store.engine, start, before, store.State(), now)
    modifies store
    ensures store.Valid() && store.clock <= now
    ensures Follows(store.engine, start, steps, store.State(), now)
    ensures steps == before + [Step(ObserveOp(c.id, SimulatedInput(c.row.terms, c.sample, c.size), demo), now)]
    ensures Evolves(old(store.State()), store.State())
  {
    hide SoundEngine, Inv, Follows, ObserveTx, SimulatedInput, Evolves;
    var input := SimulatedInput(c.row.terms, c.sample, c.size);
    ghost var step := Step(ObserveOp(c.id, input, demo), now);
    FollowOn(store.engine, start, before, store.State(), step);
    StepEvolves(store.engine, store.State(), store.clock, step);
    var recorded := store.RecordEvidence(c.id, input, demo, now);
    steps := before + [step];
  }

  /** The external resolver's answer. */
  method Ask(
      store: Store, c: Chosen, outcome: nat, selected: int, replay: bool, now: int, ghost start: State,
      ghost before: seq<Step>
    )
    returns (ghost steps: seq<Step>)
    requires store.Valid() && store.clock <= now && selected <= now && ChosenOk(store.State(), c, selected)
    requires c.row.terms.authority == Resolver
    requires Follows(store.engine, start, before, store.State(), now)
    modifies store
    ensures store.Valid() && store.clock <= now
    ensures Follows(store.engine, start, steps, store.State(), now)
    ensures steps == before + [Step(ResolverOp(c.id, outcome, "resolver", replay, selected), now)]
    ensures Evolves(old(store.State()), store.State())
  {
    hide SoundEngine, Inv, Follows, ResolverAnswers, Evolves, ValidRule;
    ghost var step := Step(ResolverOp(c.id, outcome, "resolver", replay, selected), now);
    FollowOn(store.engine, start, before, store.State(), step);
    StepEvolves(store.engine, store.State(), store.clock, step);
    var recorded := store.RecordResolverEvidence(c.id, outcome, "resolver", replay, now);
    steps := before + [step];
  }

  method Settle(
      store: Store, id: MarketId, now: int, ghost start: State, ghost before: seq<Step>
    ) returns (count: nat, batch: seq<UserId>, ghost steps: seq<Step>)
    requires store.Valid() && store.clock <= now && Follows(store.engine, start, before, store.State(), now)
    modifies store
    ensures store.Valid() && store.clock <= now
    ensures Follows(store.engine, start, steps, store.State(), now)
    ensures var db := old(store.State());
            if id in db.markets && Finalize(db.markets[id], now).row.phase == Resolving then
              && steps == before + [Step(SettleOp(id, batch), now)]
              && ValidBatch(Finalize(db.markets[id], now), batch) && count == |batch|
            else steps == before && count == 0
    ensures Evolves(old(store.State()), store.State())
  {
    hide SoundEngine, Inv, Follows, SettleTx, Finalize, ValidBatch, Evolves;
    ghost var db, clock := store.State(), store.clock;
    var settled;
    settled, batch := store.SettleBatch(id, now);
    ghost var step := Step(SettleOp(id, batch), now);
    steps := before;
    StepEvolves(store.engine, db, clock, step);
    if id in db.markets && Finalize(db.markets[id], now).row.phase == Resolving {
      FollowOn(store.engine, start, before, db, step);
      steps := before + [step];
    } else {
      IdleSettlement(db, id, batch, now);
      NothingChanges(store.engine, State(db, clock));
    }
    count := if settled.Ok? then settled.value else 0;
  }

  /** The step towards a verdict. */
  method Inform(
      store: Store, c: Chosen, selected: int, demo: bool, live: bool, now: int, ghost start: State, ghost before: seq<Step>
    ) returns (ghost steps: seq<Step>)
    requires store.Valid() && store.clock <= now && selected <= now && ChosenOk(store.State(), c, selected)
    requires Follows(store.engine, start, before, store.State(), now)
    modifies store
    ensures store.Valid() && store.clock <= now
    ensures Follows(store.engine, start, steps, store.State(), now)
    ensures steps == before + EvidenceSteps(c, demo, live, now, selected)
    ensures Evolves(old(store.State()), store.State())
  {
    hide SoundEngine, Inv, Follows, Evolves, SimulatedInput, ValidRule;
    var t := c.row.terms;
    steps := before;
    if demo && !live && t.simulated && c.row.phase == Closed && c.row.evidenceId.None? && t.authority == Simulator {
      steps := Simulate(store, c, selected, demo, now, start, steps);
      return;
    }
    if c.row.phase == Closed && c.row.evidenceId.None? && t.authority == Resolver && c.answer.Some? {
      steps := Ask(store, c, c.answer.value, selected, demo && t.simulated, now, start, steps);
      return;
    }
    NothingChanges(store.engine, State(store.State(), store.clock));
  }

  /** One selected instance: its simulated observation or its resolver's answer first, then one
      settlement batch if the market is final by then, others acting before each. Refusals are left to
      the next pass. Since only instances past their window are selected, every step is a legal one. */
  method ProcessInstance(
    store: Store, c: Chosen, selected: int, demo: bool, live: bool, others: Others, turn: nat, at: int,
    ghost start: State, ghost before: seq<Step>
  ) returns (count: nat, now: int, ghost steps: seq<Step>, ghost made: Turn)
    requires store.Valid() && store.clock <= at && selected <= at && ChosenOk(store.State(), c, selected)
    requires Follows(store.engine, start, before, store.State(), at) && LegalOthers(store.engine, others)
    modifies store
    ensures store.Valid() && store.clock <= now && at <= made.at <= made.now == now
    ensures Follows(store.engine, start, steps, store.State(), now)
    ensures ValidRule(c.row.terms.rule)
    ensures TurnMade(store.engine, start, before, steps, c, selected, demo, live, others, turn, at, made, count)
    ensures Evolves(old(store.State()), store.State())
  {
    hide SoundEngine, Inv, Follows, Evolves, LegalOthers, ValidRule, EvidenceSteps, Run, Finalize, ValidBatch, Meantime;
    ghost var db := store.State();
    now, steps := Meanwhile(store, others, turn, at, start, before);
    ChosenStays(db, store.State(), c, selected);
    ghost var early, mid := now, store.State();
    steps := Inform(store, c, selected, demo, live, now, start, steps);
    EvolvesTransitively(db, mid, store.State());
    ghost var recorded := store.State();
    now, steps := Meanwhile(store, others, turn + 1, now, start, steps);
    EvolvesTransitively(db, recorded, store.State());
    ghost var settling := store.State();
    FollowsTo(store.engine, start, steps, settling, now);
    var batch;
    count, batch, steps := Settle(store, c.id, now, start, steps);
    EvolvesTransitively(db, settling, store.State());
    made := Turn(early, now, batch);
  }

  /** The selected instances of a pass with their simulated samples and resolver answers, at most a
      hundred of them. */
  method Select(
      store: Store, now: int, demo: bool, samples: MarketId -> nat, sizes: MarketId -> nat,
      answers: MarketId -> Option<nat>
    ) returns (chosen: seq<Chosen>)
    requires store.Valid() && store.clock <= now
    ensures |chosen| <= 100
    ensures forall k :: 0 <= k < |chosen| ==>
      && chosen[k].id in store.markets && chosen[k].row == store.markets[chosen[k].id].row
      && DueSelected(store.markets[chosen[k].id], now, demo) && ChosenOk(store.State(), chosen[k], now)
    ensures |chosen| < 100 ==> forall i :: i in store.markets && DueSelected(store.markets[i], now, demo) ==>
      exists k :: 0 <= k < |chosen| && chosen[k].id == i
    ensures ChoosesDue(store.State(), chosen, now, demo)
  {
    hide SoundEngine, Inv, DueSelected, ChoosesDue;
    chosen := [];
    var left := set i | i in store.markets && DueSelected(store.markets[i], now, demo);
    while left != {} && |chosen| < 100
      invariant |chosen| <= 100
      invariant forall i :: i in left ==> i in store.markets && DueSelected(store.markets[i], now, demo)
      invariant forall k :: 0 <= k < |chosen| ==>
        && chosen[k].id in store.markets && chosen[k].row == store.markets[chosen[k].id].row
        && DueSelected(store.markets[chosen[k].id], now, demo) && ChosenOk(store.State(), chosen[k], now)
      invariant forall i :: i in store.markets && DueSelected(store.markets[i], now, demo) ==>
        i in left || exists k :: 0 <= k < |chosen| && chosen[k].id == i
      decreases left
    {
      var id :| id in left;
      DueHasEnded(store.engine, store.State(), store.clock, id, now, demo);
      var c := Chosen(id, store.markets[id].row, samples(id), sizes(id), answers(id));
      ghost var before := chosen;
      left, chosen := left - {id}, chosen + [c];
      assert chosen[|before|].id == id;
      assert forall k :: 0 <= k < |before| ==> chosen[k] == before[k];
    }
    ChosenAreDue(store.State(), chosen, now, demo);
  }

  lemma ChosenAreDue(db: Db, chosen: seq<Chosen>, now: int, demo: bool)
    requires |chosen| <= 100
    requires forall k :: 0 <= k < |chosen| ==>
      && chosen[k].id in db.markets && chosen[k].row == db.markets[chosen[k].id].row
      && DueSelected(db.markets[chosen[k].id], now, demo)
    requires |chosen| < 100 ==> forall i :: i in db.markets && DueSelected(db.markets[i], now, demo) ==>
      exists k :: 0 <= k < |chosen| && chosen[k].id == i
    ensures ChoosesDue(db, chosen, now, demo)
  {
    hide DueSelected;
  }

  lemma DueHasEnded(e: Engine, db: Db, clock: int, id: MarketId, now: int, demo: bool)
    requires Inv(e, db, clock) && clock <= now && id in db.markets && DueSelected(db.markets[id], now, demo)
    ensures db.markets[id].row.terms.observationEnd <= now && ValidRule(db.markets[id].row.terms.rule)
    ensures Reserve(id) in db.books.balances
  {
    MarketIsKept(e, db, clock, id);
  }

  /** The turns of the selected instances, one after the other: `trail` is the run before each and after
      the last. */
  datatype Turns = Turns(trail: seq<seq<Step>>, turns: seq<Turn>, counts: seq<int>)

  ghost predicate TurnsMade(
      e: Engine, start: State, before: seq<Step>, after: seq<Step>, chosen: seq<Chosen>, selected: int, demo: bool,
      live: bool, others: Others, made: Turns
    )
  {
    && |made.trail| == |chosen| + 1 && |made.turns| == |made.counts| == |chosen|
    && made.trail[0] == before && made.trail[|chosen|] == after
    && forall k :: 0 <= k < |chosen| ==> TurnAt(e, start, chosen[k], selected, demo, live, others, made, k)
  }

  ghost predicate TurnAt(
      e: Engine, start: State, c: Chosen, selected: int, demo: bool, live: bool, others: Others, made: Turns, k: nat
    )
    requires k < |made.turns| && |made.trail| == |made.turns| + 1 && |made.counts| == |made.turns|
  {
    && ValidRule(c.row.terms.rule) && 0 <= made.counts[k]
    && TurnMade(e, start, made.trail[k], made.trail[k + 1], c, selected, demo, live, others,
                2 + 2 * k, if k == 0 then selected else made.turns[k - 1].now, made.turns[k], made.counts[k])
  }

  function LastTurn(selected: int, turns: seq<Turn>): int {
    if turns == [] then selected else turns[|turns| - 1].now
  }

  lemma OneMoreTurn(
      e: Engine, start: State, before: seq<Step>, mid: seq<Step>, after: seq<Step>, chosen: seq<Chosen>, k: nat,
      selected: int, demo: bool, live: bool, others: Others, made: Turns, turn: Turn, count: nat
    )
    requires k < |chosen| && ValidRule(chosen[k].row.terms.rule)
    requires TurnsMade(e, start, before, mid, chosen[..k], selected, demo, live, others, made)
    requires TurnMade(e, start, mid, after, chosen[k], selected, demo, live, others, 2 + 2 * k,
                      LastTurn(selected, made.turns), turn, count)
    ensures TurnsMade(e, start, before, after, chosen[..k + 1], selected, demo, live, others,
                      Turns(made.trail + [after], made.turns + [turn], made.counts + [count]))
    ensures Total(made.counts + [count]) == Total(made.counts) + count
  {
    hide TurnMade, ValidRule;
    assert (made.counts + [count])[..|made.counts|] == made.counts;
    var next := Turns(made.trail + [after], made.turns + [turn], made.counts + [count]);
    var some := chosen[..k + 1];
    forall j | 0 <= j < |some| ensures TurnAt(e, start, some[j], selected, demo, live, others, next, j) {
      if j < k {
        assert TurnAt(e, start, chosen[..k][j], selected, demo, live, others, made, j);
        assert chosen[..k][j] == chosen[j];
        assert next.trail[j] == made.trail[j] && next.trail[j + 1] == made.trail[j + 1];
        assert next.turns[j] == made.turns[j] && next.counts[j] == made.counts[j];
        assert j > 0 ==> next.turns[j - 1] == made.turns[j - 1];
      }
    }
  }

  /** The selected instances, one after the other. */
  method ProcessAll(
    store: Store, chosen: seq<Chosen>, selected: int, demo: bool, live: bool, others: Others, ghost start: State,
    ghost before: seq<Step>
  ) returns (count: nat, now: int, ghost steps: seq<Step>, ghost made: Turns)
    requires store.Valid() && store.clock <= selected && LegalOthers(store.engine, others)
    requires forall k :: 0 <= k < |chosen| ==> ChosenOk(store.State(), chosen[k], selected)
    requires Follows(store.engine, start, before, store.State(), selected)
    modifies store
    ensures store.Valid() && store.clock <= now && selected <= now
    ensures Follows(store.engine, start, steps, store.State(), now)
    ensures TurnsMade(store.engine, start, before, steps, chosen, selected, demo, live, others, made)
    ensures count == Total(made.counts) && now == LastTurn(selected, made.turns)
  {
    hide SoundEngine, Inv, Follows, ChosenOk, Evolves, LegalOthers, TurnMade, ValidRule;
    count, now, steps := 0, selected, before;
    made := Turns([before], [], []);
    var k: nat := 0;
    while k < |chosen|
      invariant 0 <= k <= |chosen|
      invariant store.Valid() && store.clock <= now && selected <= now
      invariant Follows(store.engine, start, steps, store.State(), now)
      invariant forall j :: 0 <= j < |chosen| ==> ChosenOk(store.State(), chosen[j], selected)
      invariant TurnsMade(store.engine, start, before, steps, chosen[..k], selected, demo, live, others, made)
      invariant count == Total(made.counts) && now == LastTurn(selected, made.turns)
    {
      ghost var db, was := store.State(), steps;
      var n;
      ghost var turn;
      n, now, steps, turn := ProcessInstance(store, chosen[k], selected, demo, live, others, 2 + 2 * k, now, start, steps);
      forall j | 0 <= j < |chosen| ensures ChosenOk(store.State(), chosen[j], selected) {
        ChosenStays(db, store.State(), chosen[j], selected);
      }
      OneMoreTurn(store.engine, start, before, was, steps, chosen, k, selected, demo, live, others, made, turn, n);
      made := Turns(made.trail + [steps], made.turns + [turn], made.counts + [n]);
      count, k := count + n, k + 1;
    }
    assert chosen[..k] == chosen;
  }

  // ---- A whole pass -------------------------------------------------------------------------------------------

  /** What a pass did: the instances it closed at `at`, those it chose at `selected` and their turns, and
      the brackets it purged at `now`. */
  datatype Pass = Pass(
    at: int, closed: set<MarketId>, selected: int, chosen: seq<Chosen>, made: Turns, purged: set<MarketId>, now: int)

  /** Due instances that nobody has locked, at most a hundred and all of them when fewer. */
  ghost predicate ClosesDue(db: Db, closed: set<MarketId>, locked: set<MarketId>, now: int) {
    && (forall i :: i in closed ==> i in db.markets && Due(db.markets[i], now) && i !in locked)
    && |closed| <= 100
    && (|closed| < 100 ==> forall i :: i in db.markets && Due(db.markets[i], now) && i !in locked ==> i in closed)
  }

  /** Selected instances with their rows, at most a hundred and all of them when fewer. */
  ghost predicate ChoosesDue(db: Db, chosen: seq<Chosen>, now: int, demo: bool) {
    && |chosen| <= 100
    && (forall k :: 0 <= k < |chosen| ==>
          && chosen[k].id in db.markets && chosen[k].row == db.markets[chosen[k].id].row
          && DueSelected(db.markets[chosen[k].id], now, demo))
    && (|chosen| < 100 ==> forall i :: i in db.markets && DueSelected(db.markets[i], now, demo) ==>
          exists k :: 0 <= k < |chosen| && chosen[k].id == i)
  }

  /** Expired settled brackets, at most twenty and all of them when fewer. */
  ghost predicate PurgesExpired(db: Db, purged: set<MarketId>, now: int) {
    && (forall i :: i in purged ==> i in db.markets && Purgeable(db, i, now))
    && |purged| <= 20
    && (|purged| < 20 ==> forall i :: i in db.markets && Purgeable(db, i, now) ==> i in purged)
  }

  /** The run up to the selection. */
  ghost function Closing(e: Engine, start: State, others: Others, p: Pass): seq<Step> {
    var closing := Meantime(e, start, [], others, 0, start.clock) + [Step(CloseOp(p.closed), p.at)];
    closing + Meantime(e, start, closing, others, 1, p.at)
  }

  /** The run of the pass: closing, the turns of the chosen instances, purging, and what the others do
      before each of these steps; nothing else. */
  ghost predicate PassMade(
      e: Engine, start: State, steps: seq<Step>, demo: bool, live: bool, locked: set<MarketId>, others: Others, p: Pass
    )
  {
    && ClosesDue(Run(e, start, Meantime(e, start, [], others, 0, start.clock)).db, p.closed, locked, p.at)
    && ChoosesDue(Run(e, start, Closing(e, start, others, p)).db, p.chosen, p.selected, demo)
    && p.made.trail != []
    && var settled := p.made.trail[|p.made.trail| - 1];
       && TurnsMade(e, start, Closing(e, start, others, p), settled, p.chosen, p.selected, demo, live, others, p.made)
       && var ready := settled + Meantime(e, start, settled, others, 2 + 2 * |p.chosen|, LastTurn(p.selected, p.made.turns));
          && steps == ready + [Step(PurgeOp(p.purged), p.now)]
          && PurgesExpired(Run(e, start, ready).db, p.purged, p.now)
  }

  method ClosePass(
      store: Store, locked: set<MarketId>, now: int, ghost start: State, ghost before: seq<Step>
    ) returns (ghost steps: seq<Step>, ghost closed: set<MarketId>)
    requires store.Valid() && store.clock <= now && Follows(store.engine, start, before, store.State(), now)
    modifies store
    ensures store.Valid() && store.clock <= now
    ensures Follows(store.engine, start, steps, store.State(), now)
    ensures steps == before + [Step(CloseOp(closed), now)]
    ensures ClosesDue(Run(store.engine, start, before).db, closed, locked, now)
  {
    hide SoundEngine, Inv, Follows, CloseTx, Due, Run;
    ghost var db := store.State();
    FollowsTo(store.engine, start, before, db, now);
    var done := store.CloseDue(locked, now);
    closed := done;
    DueStays(db, closed, now);
    FollowOn(store.engine, start, before, db, Step(CloseOp(closed), now));
    steps := before + [Step(CloseOp(closed), now)];
  }

  method PurgePass(
      store: Store, now: int, ghost start: State, ghost before: seq<Step>
    ) returns (ghost steps: seq<Step>, ghost purged: set<MarketId>)
    requires store.Valid() && store.clock <= now && Follows(store.engine, start, before, store.State(), now)
    modifies store
    ensures store.Valid() && store.clock <= now
    ensures Follows(store.engine, start, steps, store.State(), now)
    ensures steps == before + [Step(PurgeOp(purged), now)]
    ensures PurgesExpired(Run(store.engine, start, before).db, purged, now)
  {
    hide SoundEngine, Inv, Follows, PurgeTx, Purgeable, Run;
    ghost var db := store.State();
    FollowsTo(store.engine, start, before, db, now);
    var done := store.PurgeExpiredBrackets(now);
    purged := done;
    PurgeableStays(db, purged, now);
    FollowOn(store.engine, start, before, db, Step(PurgeOp(purged), now));
    steps := before + [Step(PurgeOp(purged), now)];
  }

  /** One pass: close what is due, process the selected instances, purge; others act before each of
      these steps. The pass keeps the invariant, and with the others' it is one legal run. */
  method Tick(
    store: Store, demo: bool, live: bool, locked: set<MarketId>, samples: MarketId -> nat, sizes: MarketId -> nat,
    answers: MarketId -> Option<nat>, others: Others
  ) returns (count: nat, now: int, ghost steps: seq<Step>, ghost p: Pass)
    requires store.Valid() && LegalOthers(store.engine, others)
    modifies store
    ensures store.Valid() && old(store.clock) <= now
    ensures Follows(store.engine, old(State(store.State(), store.clock)), steps, store.State(), now)
    ensures PassMade(store.engine, old(State(store.State(), store.clock)), steps, demo, live, locked, others, p)
    ensures count == Total(p.made.counts)
  {
    hide SoundEngine, Inv, Follows, DueSelected, ChosenOk, LegalOthers, Evolves, Meantime, TurnsMade, Run,
         PassMade, ClosesDue, ChoosesDue, PurgesExpired;
    ghost var e, start := store.engine, State(store.State(), store.clock);
    FollowNothing(e, start);
    now, steps := Meanwhile(store, others, 0, store.clock, start, []);
    ghost var at, opening := now, steps;
    ghost var closed;
    steps, closed := ClosePass(store, locked, now, start, steps);
    ghost var closing := steps;
    now, steps := Meanwhile(store, others, 1, now, start, steps);
    ghost var before, selected := steps, now;
    FollowsTo(e, start, steps, store.State(), now);
    var chosen := Select(store, now, demo, samples, sizes, answers);
    ghost var made;
    count, now, steps, made := ProcessAll(store, chosen, now, demo, live, others, start, steps);
    ghost var settled := steps;
    now, steps := Meanwhile(store, others, 2 + 2 * |chosen|, now, start, steps);
    ghost var ready := steps;
    ghost var purged;
    steps, purged := PurgePass(store, now, start, steps);
    p := Pass(at, closed, selected, chosen, made, purged, now);
    PassIsMade(e, start, steps, demo, live, locked, others, p, opening, closing, before, settled, ready);
  }

  /** The pieces make up the pass. */
  lemma PassIsMade(
      e: Engine, start: State, steps: seq<Step>, demo: bool, live: bool, locked: set<MarketId>, others: Others, p: Pass,
      opening: seq<Step>, closing: seq<Step>, before: seq<Step>, settled: seq<Step>, ready: seq<Step>
    )
    requires opening == [] + Meantime(e, start, [], others, 0, start.clock)
    requires closing == opening + [Step(CloseOp(p.closed), p.at)]
    requires before == closing + Meantime(e, start, closing, others, 1, p.at)
    requires ClosesDue(Run(e, start, opening).db, p.closed, locked, p.at)
    requires ChoosesDue(Run(e, start, before).db, p.chosen, p.selected, demo)
    requires TurnsMade(e, start, before, settled, p.chosen, p.selected, demo, live, others, p.made)
    requires ready == settled + Meantime(e, start, settled, others, 2 + 2 * |p.chosen|, LastTurn(p.selected, p.made.turns))
    requires PurgesExpired(Run(e, start, ready).db, p.purged, p.now) && steps == ready + [Step(PurgeOp(p.purged), p.now)]
    ensures PassMade(e, start, steps, demo, live, locked, others, p)
  {
    hide Run, Meantime, ClosesDue, ChoosesDue, PurgesExpired, TurnsMade;
    TrailEnds(e, start, before, settled, p.chosen, p.selected, demo, live, others, p.made);
    assert opening == Meantime(e, start, [], others, 0, start.clock);
    assert before == Closing(e, start, others, p);
  }

  lemma DueStays(db: Db, closed: set<MarketId>, now: int)
    ensures var next := CloseTx(db, closed, now);
            forall i :: i in db.markets && Due(db.markets[i], now) && i !in closed ==> i in next.markets && Due(next.markets[i], now)
  {}

  lemma PurgeableStays(db: Db, purged: set<MarketId>, now: int)
    ensures var next := PurgeTx(db, purged, now);
            forall i :: i in db.markets && Purgeable(db, i, now) && i !in purged ==> i in next.markets && Purgeable(next, i, now)
  {}

  lemma TrailEnds(
      e: Engine, start: State, before: seq<Step>, after: seq<Step>, chosen: seq<Chosen>, selected: int, demo: bool,
      live: bool, others: Others, made: Turns
    )
    requires TurnsMade(e, start, before, after, chosen, selected, demo, live, others, made)
    ensures made.trail != [] && made.trail[|made.trail| - 1] == after
  {
    hide TurnMade, ValidRule;
  }
}
