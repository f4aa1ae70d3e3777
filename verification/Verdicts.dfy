/** From what was observed or stated to what is paid, over every run: each evidence row holds the
    result that its content means, a market is finalized with the result of its highest revision or
    voided at the deadline, and the claims follow. */
module Verdicts {
  import opened Wrappers
  import opened PricingEngine
  import opened Books
  import opened Rules
  import opened Exchange
  import opened Invariant
  import opened Transactions
  import opened Evolution
  import opened Runs
  import opened Audit
  import opened Theorems
  import opened Submissions
  import opened Effects
  import opened Scheduler
  import opened Worker

  // ---- What a row and a result stand for ----------------------------------------------------------

  /** An observation's row holds what the observation means under the published rule and window, a
      statement's row that the stated outcome won. */
  ghost predicate Truthful(t: Terms, x: Evidence) {
    match x.content
    case Observed(input) =>
      && t.authority == Simulator
      && Means(t.rule, input.observation, t.observationStart, t.observationEnd, x.result)
    case Stated(outcome) =>
      && t.authority != Simulator && outcome < OutcomeCount(t.rule)
      && x.result == Some(Winner(outcome))
  }

  /** No row has a higher revision. */
  ghost predicate Highest(evidence: seq<Evidence>, x: Evidence) {
    x in evidence && forall k :: 0 <= k < |evidence| ==> evidence[k].revision <= x.revision
  }

  ghost predicate RevisionsDiffer(evidence: seq<Evidence>) {
    forall i, j :: 0 <= i < j < |evidence| ==> evidence[i].revision != evidence[j].revision
  }

  /** The result, once there is one, is that of the highest revision; or void, when the deadline has
      passed without one. */
  ghost predicate Justified(mk: Market, result: Resolution, clock: int) {
    || (exists x :: Highest(mk.evidence, x) && x.result == Some(result))
    || (result == Void && mk.row.terms.deadline <= clock && forall x :: Highest(mk.evidence, x) ==> x.result.None?)
  }

  ghost predicate VerdictOk(mk: Market, clock: int) {
    && (forall k :: 0 <= k < |mk.evidence| ==> Truthful(mk.row.terms, mk.evidence[k]))
    && RevisionsDiffer(mk.evidence)
    && (mk.row.result.Some? ==> Justified(mk, mk.row.result.value, clock))
  }

  ghost predicate VerdictsOk(db: Db, clock: int) {
    forall i :: i in db.markets ==> VerdictOk(db.markets[i], clock)
  }

  // ---- Finalization, exactly ------------------------------------------------------------------------

  /** The rows a market may be finalized by. */
  ghost predicate Decisive(mk: Market, x: Evidence) {
    Highest(mk.evidence, x) && x.result.Some?
  }

  lemma LatestIsTheHighest(evidence: seq<Evidence>)
    requires RevisionsDiffer(evidence)
    ensures forall x :: Highest(evidence, x) <==> Latest(evidence) == Some(x)
  {
    LatestIsHighest(evidence);
    forall x | Highest(evidence, x) ensures Latest(evidence) == Some(x) {
      var top := Latest(evidence).value;
      var i :| 0 <= i < |evidence| && evidence[i] == x;
      var j :| 0 <= j < |evidence| && evidence[j] == top;
      assert evidence[i].revision == evidence[j].revision && !(i < j) && !(j < i);
    }
  }

  /** A closed market is finalized exactly from its finalization time on, once a row is decisive or the
      deadline has passed: with the result of the decisive row, and without one as void. */
  lemma FinalizedExactly(mk: Market, now: int)
    requires mk.row.phase == Closed && RevisionsDiffer(mk.evidence)
    ensures var next := Finalize(mk, now);
            && (next.row.phase == Resolving
                <==> mk.row.terms.finalizeAfter <= now
                     && (mk.row.terms.deadline <= now || exists x :: Decisive(mk, x)))
            && (next.row.phase != Resolving ==> next == mk)
            && (next.row.phase == Resolving ==>
                  && (forall x :: Decisive(mk, x) ==> next.row.result == x.result)
                  && ((forall x :: !Decisive(mk, x)) ==> next.row.result == Some(Void))
                  && next.evidence == mk.evidence && next.positions == mk.positions && next.claims == mk.claims)
  {
    LatestIsTheHighest(mk.evidence);
    if x :| Decisive(mk, x) {
      assert Latest(mk.evidence) == Some(x);
    }
    if Latest(mk.evidence).Some? && Latest(mk.evidence).value.result.Some? {
      assert Decisive(mk, Latest(mk.evidence).value);
    }
  }

  lemma FinalResultIsJustified(mk: Market, now: int)
    requires RevisionsDiffer(mk.evidence) && FinalResult(mk, now).Some?
    ensures Justified(mk, FinalResult(mk, now).value, now)
  {
    LatestIsTheHighest(mk.evidence);
    if Latest(mk.evidence).Some? {
      assert Highest(mk.evidence, Latest(mk.evidence).value);
    }
  }

  // ---- What each transaction keeps ---------------------------------------------------------------------

  lemma VerdictLater(mk: Market, next: Market, clock: int, now: int)
    requires VerdictOk(mk, clock) && clock <= now && SameSelection(mk, next)
    requires next.row.result == mk.row.result
    ensures VerdictOk(next, now)
  {
    hide Truthful, Highest;
  }

  /** A market not yet final gains a truthful row with a new revision. */
  lemma VerdictGains(mk: Market, next: Market, clock: int, now: int, x: Evidence)
    requires VerdictOk(mk, clock) && next.row.terms == mk.row.terms && next.row.result.None?
    requires next.evidence == mk.evidence + [x] && Truthful(mk.row.terms, x)
    requires forall k :: 0 <= k < |mk.evidence| ==> mk.evidence[k].revision != x.revision
    ensures VerdictOk(next, now)
  {
    hide Truthful;
  }

  ghost predicate Undecided(mk: Market) {
    mk.row.result.Some? ==> mk.row.phase != Open && mk.row.phase != Closed
  }

  lemma ObservationKeepsVerdict(db: Db, clock: int, id: MarketId, input: EvidenceInput, demo: bool, now: int)
    requires VerdictsOk(db, clock) && clock <= now && ObserveTx(db, id, input, demo, now).Ok? && id in db.markets
    requires Undecided(db.markets[id])
    ensures VerdictsOk(ObserveTx(db, id, input, demo, now).value, now)
  {
    hide Means, VerdictOk, InputBounded, Evaluate, Latest, Fits, Undecided;
    var mk, next := db.markets[id], ObserveTx(db, id, input, demo, now).value;
    var key := EventKey(input.source, input.event);
    if k :| 0 <= k < |mk.evidence| && mk.evidence[k].key == key {
      assert next.markets == db.markets;
    } else {
      ObservationEffects(db, id, input, demo, now);
      GainedVerdict(mk, next.markets[id], clock, now, next.markets[id].evidence[|mk.evidence|]);
    }
    forall i | i in next.markets ensures VerdictOk(next.markets[i], now) {
      if i != id || next.markets == db.markets {
        VerdictLater(db.markets[i], db.markets[i], clock, now);
      }
    }
  }

  lemma GainedVerdict(mk: Market, next: Market, clock: int, now: int, x: Evidence)
    requires VerdictOk(mk, clock) && Undecided(mk) && (mk.row.phase == Open || mk.row.phase == Closed)
    requires next.row.terms == mk.row.terms && next.row.result == mk.row.result
    requires next.evidence == mk.evidence + [x] && Truthful(mk.row.terms, x)
    requires forall k :: 0 <= k < |mk.evidence| ==> mk.evidence[k].revision != x.revision
    ensures VerdictOk(next, now)
  {
    hide VerdictOk, Truthful;
    VerdictGains(mk, next, clock, now, x);
  }

  /** The first statement of an authority. */
  lemma StatementKeepsVerdict(db: Db, next: Db, clock: int, id: MarketId, x: Evidence, now: int)
    requires VerdictsOk(db, clock) && clock <= now && id in db.markets && GainsEvidence(db, next, id, x)
    requires var mk := db.markets[id];
             && mk.evidence == [] && Undecided(mk) && (mk.row.phase == Open || mk.row.phase == Closed)
             && Truthful(mk.row.terms, x)
    ensures VerdictsOk(next, now)
  {
    hide VerdictOk, Truthful, Undecided;
    GainedVerdict(db.markets[id], next.markets[id], clock, now, x);
    forall i | i in next.markets ensures VerdictOk(next.markets[i], now) {
      if i != id {
        VerdictLater(db.markets[i], db.markets[i], clock, now);
      }
    }
  }

  lemma CreatorKeepsVerdict(
      db: Db, clock: int, id: MarketId, submitter: UserId, outcome: nat, event: string, nonce: string, signed: bool, now: int
    )
    requires VerdictsOk(db, clock) && clock <= now && CreatorTx(db, id, submitter, outcome, event, nonce, signed, now).Ok?
    requires id in db.markets && Undecided(db.markets[id]) && SelectionOk(db.markets[id])
    requires Outcomes(db.markets[id].row) == OutcomeCount(db.markets[id].row.terms.rule)
    ensures VerdictsOk(CreatorTx(db, id, submitter, outcome, event, nonce, signed, now).value, now)
  {
    hide VerdictsOk, GainsEvidence, CreatorTx, Undecided, SelectedKey;
    CreatorResolutionEffects(db, id, submitter, outcome, event, nonce, signed, now);
    NoStatementYet(db.markets[id], CREATOR_SOURCE);
    var x := Evidence(EventKey(CREATOR_SOURCE, event), 0, now, Stated(outcome), Some(Winner(outcome)));
    StatementKeepsVerdict(db, CreatorTx(db, id, submitter, outcome, event, nonce, signed, now).value, clock, id, x, now);
  }

  lemma ResolverKeepsVerdict(db: Db, clock: int, id: MarketId, outcome: nat, event: string, replay: bool, now: int)
    requires VerdictsOk(db, clock) && clock <= now && ResolverTx(db, id, outcome, event, replay, now).Ok?
    requires id in db.markets && Undecided(db.markets[id]) && SelectionOk(db.markets[id])
    requires db.markets[id].row.terms.authority == Resolver
    requires Outcomes(db.markets[id].row) == OutcomeCount(db.markets[id].row.terms.rule)
    ensures VerdictsOk(ResolverTx(db, id, outcome, event, replay, now).value, now)
  {
    hide VerdictsOk, GainsEvidence, ResolverTx, Undecided, SelectedKey;
    ResolverAnswerEffects(db, id, outcome, event, replay, now);
    if HasSource(db.markets[id].evidence, RESOLVER_SOURCE) {
      VerdictsLater(db, clock, now);
    } else {
      NoStatementYet(db.markets[id], RESOLVER_SOURCE);
      var x := Evidence(EventKey(RESOLVER_SOURCE, event), 0, now, Stated(outcome), Some(Winner(outcome)));
      StatementKeepsVerdict(db, ResolverTx(db, id, outcome, event, replay, now).value, clock, id, x, now);
    }
  }

  lemma VerdictsLater(db: Db, clock: int, now: int)
    requires VerdictsOk(db, clock) && clock <= now
    ensures VerdictsOk(db, now)
  {
    hide VerdictOk;
    forall i | i in db.markets ensures VerdictOk(db.markets[i], now) {
      VerdictLater(db.markets[i], db.markets[i], clock, now);
    }
  }

  /** Settlement changes the result of its market only, once, to the final one. */
  lemma SettleKeepsResults(db: Db, id: MarketId, batch: seq<UserId>, now: int)
    requires SettleTx(db, id, batch, now).Ok?
    ensures var next := SettleTx(db, id, batch, now).value;
            && id in db.markets && id in next.markets
            && next.markets[id].row.result == Finalize(db.markets[id], now).row.result
  {
    hide PayClaims, Drain, Unclaimed, FinalResult;
    var mk := Finalize(db.markets[id], now);
    if mk.row.phase == Resolving {
      ClaimsContinue(Settling(db.books, mk), id, batch, {});
    }
  }

  lemma SettleKeepsVerdicts(db: Db, clock: int, id: MarketId, batch: seq<UserId>, now: int)
    requires VerdictsOk(db, clock) && clock <= now && SettleTx(db, id, batch, now).Ok?
    ensures VerdictsOk(SettleTx(db, id, batch, now).value, now)
  {
    hide VerdictOk, SettleTx, FinalResult;
    SettleKeepsSelection(db, id, batch, now);
    SettleKeepsResults(db, id, batch, now);
    var mk, next := db.markets[id], SettleTx(db, id, batch, now).value;
    if next.markets[id].row.result == mk.row.result {
      VerdictLater(mk, next.markets[id], clock, now);
    } else {
      FinalizedVerdict(mk, next.markets[id], clock, now);
    }
    forall i | i in next.markets ensures VerdictOk(next.markets[i], now) {
      if i != id {
        VerdictLater(db.markets[i], db.markets[i], clock, now);
      }
    }
  }

  lemma FinalizedVerdict(mk: Market, next: Market, clock: int, now: int)
    requires VerdictOk(mk, clock) && SameSelection(mk, next)
    requires next.row.result == Finalize(mk, now).row.result != mk.row.result
    ensures VerdictOk(next, now)
  {
    hide Truthful, FinalResult, Highest;
    FinalResultIsJustified(mk, now);
  }

  lemma OthersKeepResults(e: Engine, db: Db, op: Op, now: int)
    requires !Records(op) && !op.TradeOp? && !op.SettleOp? && Apply(e, db, op, now).Ok?
    ensures var next := Apply(e, db, op, now).value;
            forall i :: i in db.markets && i in next.markets ==> next.markets[i].row.result == db.markets[i].row.result
  {
    hide Post, SlotTaken, SpecValid, ValidRule, CategoryFits, ValidName, Text.Within, Purgeable, Due;
  }

  lemma TradeKeepResults(e: Engine, db: Db, op: Op, now: int)
    requires op.TradeOp? && Apply(e, db, op, now).Ok?
    ensures var next := Apply(e, db, op, now).value;
            forall i :: i in db.markets && i in next.markets ==> next.markets[i].row.result == db.markets[i].row.result
  {
    hide Recheck, Fund, Post, ParseMicros;
  }

  lemma NewVerdict(terms: Terms, now: int)
    ensures VerdictOk(NewMarket(terms), now)
  {}

  lemma RecordKeepsVerdicts(e: Engine, db: Db, clock: int, op: Op, now: int)
    requires Records(op) && Inv(e, db, clock) && SelectionsOk(db) && VerdictsOk(db, clock)
    requires clock <= now && Legal(db, op, now) && Apply(e, db, op, now).Ok?
    ensures VerdictsOk(Apply(e, db, op, now).value, now)
  {
    hide Inv, SelectionOk, VerdictsOk, ObserveTx, CreatorTx, ResolverTx;
    RecordedMarketKnown(e, db, op, now);
    UndecidedMarket(e, db, clock, op.market);
    match op
    case ObserveOp(id, input, demo) => ObservationKeepsVerdict(db, clock, id, input, demo, now);
    case CreatorOp(id, submitter, outcome, event, nonce, signed) =>
      CreatorKeepsVerdict(db, clock, id, submitter, outcome, event, nonce, signed, now);
    case ResolverOp(id, outcome, event, replay, _) => ResolverKeepsVerdict(db, clock, id, outcome, event, replay, now);
  }

  lemma RecordedMarketKnown(e: Engine, db: Db, op: Op, now: int)
    requires Records(op) && Apply(e, db, op, now).Ok?
    ensures op.market in db.markets
  {
    hide ObserveMarket, CreatorResolves, ResolverAnswers, InputBounded, Text.Bytes, Text.Trim;
  }

  lemma UndecidedMarket(e: Engine, db: Db, clock: int, id: MarketId)
    requires Inv(e, db, clock) && id in db.markets
    ensures Undecided(db.markets[id])
    ensures Outcomes(db.markets[id].row) == OutcomeCount(db.markets[id].row.terms.rule)
  {
    MarketIsKept(e, db, clock, id);
  }

  lemma ApplyKeepsVerdicts(e: Engine, db: Db, clock: int, op: Op, now: int)
    requires Inv(e, db, clock) && SelectionsOk(db) && VerdictsOk(db, clock)
    requires clock <= now && Legal(db, op, now) && Apply(e, db, op, now).Ok?
    ensures VerdictsOk(Apply(e, db, op, now).value, now)
  {
    hide Inv, SelectionOk, SelectionsOk, VerdictOk, Apply, Legal;
    var next := Apply(e, db, op, now).value;
    if Records(op) {
      RecordKeepsVerdicts(e, db, clock, op, now);
    } else if op.SettleOp? {
      assert Apply(e, db, op, now) == SettleTx(db, op.market, op.batch, now) by { AppliedSettlement(e, db, op, now); }
      SettleKeepsVerdicts(db, clock, op.market, op.batch, now);
    } else {
      if op.TradeOp? {
        TradeKeepSelections(e, db, op, now);
        TradeKeepResults(e, db, op, now);
      } else {
        OthersKeepSelections(e, db, op, now);
        OthersKeepResults(e, db, op, now);
      }
      forall i | i in next.markets ensures VerdictOk(next.markets[i], now) {
        if i in db.markets {
          VerdictLater(db.markets[i], next.markets[i], clock, now);
        } else {
          NewVerdict(op.terms, now);
        }
      }
    }
  }

  lemma AppliedSettlement(e: Engine, db: Db, op: Op, now: int)
    requires op.SettleOp?
    ensures Apply(e, db, op, now) == SettleTx(db, op.market, op.batch, now)
  {
    hide SettleTx;
  }

  lemma {:induction false} RunKeepsVerdicts(e: Engine, steps: seq<Step>)
    requires SoundEngine(e) && LegalRun(e, Genesis(), steps)
    ensures var s := Run(e, Genesis(), steps);
            SelectionsOk(s.db) && VerdictsOk(s.db, s.clock) && Inv(e, s.db, s.clock)
  {
    hide SoundEngine, LegalRun, Inv, Apply, Audited, VerdictsOk, SelectionsOk, Genesis, Legal;
    GenesisIsSound(e);
    RunKeepsInv(e, Genesis(), steps);
    NothingSelected();
    RunKeepsSelections(e, Genesis(), steps);
    if steps != [] {
      var n := |steps| - 1;
      PrefixIsLegal(e, Genesis(), steps, n);
      RunKeepsVerdicts(e, steps[..n]);
      var before := Run(e, Genesis(), steps[..n]);
      if Apply(e, before.db, steps[n].op, steps[n].now).Ok? {
        ApplyKeepsVerdicts(e, before.db, before.clock, steps[n].op, steps[n].now);
      } else {
        VerdictsLater(before.db, before.clock, steps[n].now);
      }
    }
  }

  lemma NothingSelected()
    ensures SelectionsOk(Genesis().db) && VerdictsOk(Genesis().db, Genesis().clock)
  {}

  // ---- The main results ------------------------------------------------------------------------------------

  lemma ReachableVerdict(e: Engine, s: State, id: MarketId)
    requires SoundEngine(e) && Reachable(e, s) && id in s.db.markets
    ensures SelectionOk(s.db.markets[id]) && VerdictOk(s.db.markets[id], s.clock)
  {
    hide SoundEngine, LegalRun, Run, Inv, SelectionOk, VerdictOk;
    var steps :| LegalRun(e, Genesis(), steps) && Run(e, Genesis(), steps) == s;
    RunKeepsVerdicts(e, steps);
  }

  /** In every reachable state: each evidence row holds the result that its content means, no two have
      the same revision, a result is that of the highest revision or a void at the deadline, and an
      authority's market has at most the one row that authority stated. */
  lemma VerdictsFollowEvidence(e: Engine, s: State, id: MarketId)
    requires SoundEngine(e) && Reachable(e, s) && id in s.db.markets
    ensures var mk := s.db.markets[id];
            && (forall k :: 0 <= k < |mk.evidence| ==> Truthful(mk.row.terms, mk.evidence[k]))
            && (forall i, j :: 0 <= i < j < |mk.evidence| ==> mk.evidence[i].revision != mk.evidence[j].revision)
            && (mk.row.result.Some? ==> Justified(mk, mk.row.result.value, s.clock))
            && (mk.row.terms.authority != Simulator ==> |mk.evidence| <= 1)
  {
    hide SoundEngine, Reachable, Truthful, Justified;
    ReachableVerdict(e, s, id);
  }

  /** The market is decided for `r`: no other result is possible, from the finalization time on
      settlement finalizes it with `r`, and that is what its holders are paid by. */
  ghost predicate DecidedBy(mk: Market, r: Resolution) {
    && (mk.row.result.Some? ==> mk.row.result == Some(r))
    && (mk.row.phase == Closed ==> forall now :: mk.row.terms.finalizeAfter <= now ==>
          Finalize(mk, now).row.phase == Resolving && Finalize(mk, now).row.result == Some(r))
    && (Terminal(mk.row) ==> mk.row.result == Some(r) && PaysHolders(mk))
  }

  /** A reachable market whose only evidence row has a result is decided for it; one whose only row has
      none is voided, and not before the deadline. */
  lemma SoleRowDecides(e: Engine, s: State, id: MarketId, x: Evidence)
    requires SoundEngine(e) && Reachable(e, s) && id in s.db.markets && s.db.markets[id].evidence == [x]
    ensures x.result.Some? ==> DecidedBy(s.db.markets[id], x.result.value)
    ensures x.result.None? && s.db.markets[id].row.result.Some? ==>
      s.db.markets[id].row.result == Some(Void) && s.db.markets[id].row.terms.deadline <= s.clock
  {
    hide SoundEngine, Reachable, Truthful, PaysHolders, HolderCredits, Finalize, SelectionOk;
    var mk := s.db.markets[id];
    ReachableVerdict(e, s, id);
    assert forall y :: Highest(mk.evidence, y) <==> y == x;
    if Terminal(mk.row) {
      TerminalClaimsAreCredits(e, s, id);
    }
    if mk.row.phase == Closed && x.result.Some? {
      forall now | mk.row.terms.finalizeAfter <= now
        ensures Finalize(mk, now).row.phase == Resolving && Finalize(mk, now).row.result == x.result
      {
        assert Decisive(mk, x);
        FinalizedExactly(mk, now);
      }
    }
  }

  lemma EvidenceStays(e: Engine, s: State, steps: seq<Step>, id: MarketId)
    requires SoundEngine(e) && Reachable(e, s) && LegalRun(e, s, steps)
    requires id in s.db.markets && id in Run(e, s, steps).db.markets
    ensures Reachable(e, Run(e, s, steps))
    ensures s.db.markets[id].evidence <= Run(e, s, steps).db.markets[id].evidence
    ensures s.db.markets[id].row.terms == Run(e, s, steps).db.markets[id].row.terms
  {
    hide SoundEngine, Reachable, LegalRun, Run;
    ReachableOn(e, s, steps);
    LifecycleOverRuns(e, s, steps, id);
  }

  /** From an authority's statement on, in every run, the market is decided for the stated outcome. */
  lemma StatementDecides(e: Engine, s: State, steps: seq<Step>, id: MarketId, x: Evidence, outcome: nat)
    requires SoundEngine(e) && Reachable(e, s) && LegalRun(e, s, steps)
    requires id in s.db.markets && id in Run(e, s, steps).db.markets
    requires s.db.markets[id].row.terms.authority != Simulator
    requires x in s.db.markets[id].evidence && x.content == Stated(outcome)
    ensures Run(e, s, steps).db.markets[id].evidence == [x]
    ensures DecidedBy(Run(e, s, steps).db.markets[id], Winner(outcome))
  {
    hide SoundEngine, Reachable, LegalRun, Run, DecidedBy, Justified;
    var end := Run(e, s, steps);
    EvidenceStays(e, s, steps, id);
    VerdictsFollowEvidence(e, end, id);
    var mk := end.db.markets[id];
    assert x in mk.evidence;
    assert mk.evidence == [x];
    assert Truthful(mk.row.terms, mk.evidence[0]);
    SoleRowDecides(e, end, id, x);
  }

  /** The state after a step that succeeds. */
  lemma Stepped(e: Engine, s: State, step: Step, steps: seq<Step>)
    requires LegalRun(e, s, [step] + steps) && Apply(e, s.db, step.op, step.now).Ok?
    ensures var next := State(Apply(e, s.db, step.op, step.now).value, step.now);
            && LegalRun(e, s, [step]) && Run(e, s, [step]) == next
            && LegalRun(e, next, steps) && Run(e, s, [step] + steps) == Run(e, next, steps)
            && LegalStep(s, step)
  {
    hide Apply, Legal;
    var all := [step] + steps;
    PrefixIsLegal(e, s, all, 1);
    SuffixIsLegal(e, s, all, 1);
    RunSplits(e, s, all, 1);
    PrefixIsLegal(e, s, all, 0);
    assert all[..1] == [step] && all[1..] == steps && [step][..0] == [] && all[..0] == [];
  }

  /** Once a creator's resolution of `outcome` is recorded, the market is decided for that outcome,
      whatever else happens. */
  lemma CreatorResolutionDecides(
      e: Engine, s: State, id: MarketId, submitter: UserId, outcome: nat, event: string, nonce: string, signed: bool,
      now: int, steps: seq<Step>
    )
    requires SoundEngine(e) && Reachable(e, s)
    requires CreatorTx(s.db, id, submitter, outcome, event, nonce, signed, now).Ok?
    requires LegalRun(e, s, [Step(CreatorOp(id, submitter, outcome, event, nonce, signed), now)] + steps)
    ensures var end := Run(e, s, [Step(CreatorOp(id, submitter, outcome, event, nonce, signed), now)] + steps).db;
            id in end.markets ==>
              && end.markets[id].evidence
                 == [Evidence(EventKey("creator-signature", event), 0, now, Stated(outcome), Some(Winner(outcome)))]
              && DecidedBy(end.markets[id], Winner(outcome))
  {
    hide SoundEngine, Reachable, LegalRun, Run, DecidedBy, CreatorTx, GainsEvidence;
    var step := Step(CreatorOp(id, submitter, outcome, event, nonce, signed), now);
    assert Apply(e, s.db, step.op, now) == CreatorTx(s.db, id, submitter, outcome, event, nonce, signed, now);
    Stepped(e, s, step, steps);
    var next := State(Apply(e, s.db, step.op, now).value, now);
    CreatorResolutionEffects(s.db, id, submitter, outcome, event, nonce, signed, now);
    var x := Evidence(EventKey("creator-signature", event), 0, now, Stated(outcome), Some(Winner(outcome)));
    GainedIsThere(s.db, next.db, id, x);
    ReachableOn(e, s, [step]);
    if id in Run(e, next, steps).db.markets {
      StatementDecides(e, next, steps, id, x, outcome);
    }
  }

  lemma GainedIsThere(db: Db, next: Db, id: MarketId, x: Evidence)
    requires id in db.markets && GainsEvidence(db, next, id, x)
    ensures id in next.markets && x in next.markets[id].evidence
    ensures next.markets[id].row.terms == db.markets[id].row.terms
    ensures next.markets[id].evidence == db.markets[id].evidence + [x]
  {}

  /** Once a resolver's first answer is recorded, the market is decided for its outcome, whatever else
      happens, later answers included. */
  lemma ResolverAnswerDecides(
      e: Engine, s: State, id: MarketId, outcome: nat, event: string, replay: bool, selected: int, now: int,
      steps: seq<Step>
    )
    requires SoundEngine(e) && Reachable(e, s) && id in s.db.markets
    requires forall k :: 0 <= k < |s.db.markets[id].evidence| ==>
      s.db.markets[id].evidence[k].key.source != "external-resolver"
    requires ResolverTx(s.db, id, outcome, event, replay, now).Ok?
    requires LegalRun(e, s, [Step(ResolverOp(id, outcome, event, replay, selected), now)] + steps)
    ensures var end := Run(e, s, [Step(ResolverOp(id, outcome, event, replay, selected), now)] + steps).db;
            id in end.markets ==>
              && end.markets[id].evidence
                 == [Evidence(EventKey("external-resolver", event), 0, now, Stated(outcome), Some(Winner(outcome)))]
              && DecidedBy(end.markets[id], Winner(outcome))
  {
    hide SoundEngine, Reachable, LegalRun, Run, DecidedBy, ResolverTx, GainsEvidence;
    var step := Step(ResolverOp(id, outcome, event, replay, selected), now);
    assert Apply(e, s.db, step.op, now) == ResolverTx(s.db, id, outcome, event, replay, now);
    Stepped(e, s, step, steps);
    var next := State(Apply(e, s.db, step.op, now).value, now);
    ResolverAnswerEffects(s.db, id, outcome, event, replay, now);
    var x := Evidence(EventKey("external-resolver", event), 0, now, Stated(outcome), Some(Winner(outcome)));
    GainedIsThere(s.db, next.db, id, x);
    ReachableOn(e, s, [step]);
    if id in Run(e, next, steps).db.markets {
      StatementDecides(e, next, steps, id, x, outcome);
    }
  }

  /** A market whose only evidence is one observation is decided for what the observation means: the
      side it decides for, or void without a sole winner. An incomplete one decides nothing: the market
      is then voided, and not before the deadline. */
  lemma ObservationDecides(e: Engine, s: State, id: MarketId, x: Evidence, input: EvidenceInput)
    requires SoundEngine(e) && Reachable(e, s) && id in s.db.markets
    requires s.db.markets[id].evidence == [x] && x.content == Observed(input)
    ensures var mk := s.db.markets[id];
            var t, seen := mk.row.terms, input.observation;
            && Fits(t.rule, seen)
            && (Complete(seen) && NoSoleWinner(seen) ==> DecidedBy(mk, Void))
            && (Complete(seen) && !NoSoleWinner(seen) ==>
                  exists o :: DecidesFor(t.rule, seen, t.observationStart, t.observationEnd, o) && DecidedBy(mk, Winner(o)))
            && (!Complete(seen) && mk.row.result.Some? ==> mk.row.result == Some(Void) && t.deadline <= s.clock)
  {
    hide SoundEngine, Reachable, DecidedBy, DecidesFor, Justified, Fits;
    var mk := s.db.markets[id];
    VerdictsFollowEvidence(e, s, id);
    assert Truthful(mk.row.terms, mk.evidence[0]);
    SoleRowDecides(e, s, id, x);
    var seen := input.observation;
    if x.result.None? {
    } else if x.result.value.Void? {
    } else {
      WinnersAreSole(mk.row.terms.rule, seen, mk.row.terms.observationStart, mk.row.terms.observationEnd, x.result.value.outcome);
    }
  }

  lemma WinnersAreSole(rule: Rule, seen: Observation, start: int, end: int, o: nat)
    requires Fits(rule, seen) && DecidesFor(rule, seen, start, end, o)
    ensures !NoSoleWinner(seen)
  {}
}
