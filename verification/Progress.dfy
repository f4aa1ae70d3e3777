/** What a pass of the worker gets done, whatever the others do meanwhile: no market that is being
    settled, or whose deadline has passed, waits for more passes than its number of holders demands. */
module Progress {
  import opened PricingEngine
  import opened Books
  import opened Exchange
  import opened Invariant
  import opened Transactions
  import opened Evolution
  import opened Runs
  import opened Audit
  import opened Theorems
  import opened Scheduler
  import opened Worker
  import Confluence

  // ---- Points of one run ----------------------------------------------------------------------------

  /** The state evolves from one point of a legal run to any later one. */
  lemma PointsEvolve(e: Engine, start: State, steps: seq<Step>, a: seq<Step>, b: seq<Step>)
    requires SoundEngine(e) && Reachable(e, start) && LegalRun(e, start, steps) && a <= b <= steps
    ensures Evolves(Run(e, start, a).db, Run(e, start, b).db)
    ensures Reachable(e, Run(e, start, b)) && LegalRun(e, start, b)
  {
    hide SoundEngine, Reachable, LegalRun, Run, Inv, Audited, Evolves;
    assert steps[..|b|] == b && b[..|a|] == a;
    PrefixIsLegal(e, start, steps, |b|);
    PrefixIsLegal(e, start, b, |a|);
    ReachableOn(e, start, a);
    ReachableOn(e, start, b);
    ReachableIsSound(e, Run(e, start, a));
    RunSplits(e, start, b, |a|);
    SuffixIsLegal(e, start, b, |a|);
    RunEvolves(e, Run(e, start, a), b[|a|..]);
  }

  /** Once closed, a market keeps its positions, and its claims only grow. */
  lemma UnclaimedShrinks(mk: Market, next: Market)
    requires MarketEvolves(mk, next) && mk.row.phase != Open
    ensures |Unclaimed(next)| <= |Unclaimed(mk)| && next.row.phase != Open
    ensures mk.row.phase == Resolving ==> next.row.phase == Resolving || Terminal(next.row)
    ensures Terminal(mk.row) ==> Terminal(next.row)
    ensures next.row.terms == mk.row.terms
  {
    hide HasShares;
    assert Unclaimed(next) <= Unclaimed(mk);
    Confluence.SubsetSize(Unclaimed(next), Unclaimed(mk));
  }

  /** What a pass can settle: a market being settled, or one closed past its deadline. */
  predicate Ripe(mk: Market, now: int) {
    mk.row.phase == Resolving || (mk.row.phase == Closed && mk.row.terms.deadline <= now)
  }

  lemma RipeIsFinal(e: Engine, s: State, id: MarketId, now: int)
    requires SoundEngine(e) && Reachable(e, s) && id in s.db.markets && Ripe(s.db.markets[id], now)
    ensures Finalize(s.db.markets[id], now).row.phase == Resolving
    ensures Unclaimed(Finalize(s.db.markets[id], now)) == Unclaimed(s.db.markets[id])
  {
    hide SoundEngine, Reachable, Inv, Audited, HasShares;
    ReachableIsSound(e, s);
    TermsInOrder(e, s, id);
  }

  lemma TermsInOrder(e: Engine, s: State, id: MarketId)
    requires Inv(e, s.db, s.clock) && id in s.db.markets
    ensures s.db.markets[id].row.terms.finalizeAfter < s.db.markets[id].row.terms.deadline
  {
    MarketIsKept(e, s.db, s.clock, id);
  }

  // ---- One turn ---------------------------------------------------------------------------------------

  /** The settlement at the end of a turn. */
  lemma TurnSettles(e: Engine, start: State, ready: seq<Step>, id: MarketId, batch: seq<UserId>, now: int)
    requires SoundEngine(e) && Reachable(e, start) && LegalRun(e, start, ready + [Step(SettleOp(id, batch), now)])
    requires id in Run(e, start, ready).db.markets && Ripe(Run(e, start, ready).db.markets[id], now)
    ensures var next := Run(e, start, ready + [Step(SettleOp(id, batch), now)]).db;
            && id in next.markets
            && (next.markets[id].row.phase == Resolving || Terminal(next.markets[id].row))
            && (|Unclaimed(Run(e, start, ready).db.markets[id])| <= 100 ==> Terminal(next.markets[id].row))
  {
    hide SoundEngine, Reachable, LegalRun, Inv, Audited, SettleTx, Finalize, ValidBatch, Unclaimed, Ripe;
    var step, all := Step(SettleOp(id, batch), now), ready + [Step(SettleOp(id, batch), now)];
    assert all[..|ready|] == ready && all[|all| - 1] == step;
    PrefixIsLegal(e, start, all, |ready|);
    var s := Run(e, start, ready);
    ReachableOn(e, start, ready);
    ReachableIsSound(e, s);
    RipeIsFinal(e, s, id, now);
    Confluence.SettlementProgresses(e, s.db, s.clock, id, batch, now);
    assert Apply(e, s.db, step.op, now) == SettleTx(s.db, id, batch, now);
    assert Run(e, start, all) == Next(e, s, step);
  }

  // ---- The pass ---------------------------------------------------------------------------------------

  ghost predicate Trail(made: Turns, before: seq<Step>, end: seq<Step>) {
    && made.trail != [] && made.trail[0] == before && made.trail[|made.trail| - 1] == end
    && forall k :: 0 <= k < |made.trail| - 1 ==> made.trail[k] <= made.trail[k + 1]
  }

  lemma TurnsTrail(
      e: Engine, start: State, before: seq<Step>, after: seq<Step>, chosen: seq<Chosen>, selected: int, demo: bool,
      live: bool, others: Others, made: Turns
    )
    requires TurnsMade(e, start, before, after, chosen, selected, demo, live, others, made)
    ensures Trail(made, before, after)
    ensures |made.trail| == |chosen| + 1 && |made.turns| == |chosen|
  {
    hide Run, Meantime, EvidenceSteps, Finalize, ValidBatch;
    forall k | 0 <= k < |made.trail| - 1 ensures made.trail[k] <= made.trail[k + 1] {
      assert TurnAt(e, start, chosen[k], selected, demo, live, others, made, k);
    }
  }

  lemma {:induction false} TrailGrows(made: Turns, before: seq<Step>, end: seq<Step>, i: nat, j: nat)
    requires Trail(made, before, end) && i <= j < |made.trail|
    ensures made.trail[i] <= made.trail[j]
    decreases j
  {
    if i < j {
      TrailGrows(made, before, end, i, j - 1);
    }
  }

  lemma {:induction false} TurnsAreLater(
      e: Engine, start: State, before: seq<Step>, after: seq<Step>, chosen: seq<Chosen>, selected: int, demo: bool,
      live: bool, others: Others, made: Turns, k: nat
    )
    requires TurnsMade(e, start, before, after, chosen, selected, demo, live, others, made) && k < |chosen|
    ensures selected <= made.turns[k].at <= made.turns[k].now
  {
    hide Run, Meantime, EvidenceSteps, Finalize, ValidBatch;
    assert TurnAt(e, start, chosen[k], selected, demo, live, others, made, k);
    if k > 0 {
      TurnsAreLater(e, start, before, after, chosen, selected, demo, live, others, made, k - 1);
    }
  }

  /** The turn of a chosen instance: the run up to its settlement, and after it. */
  lemma ChosenTurn(
      e: Engine, start: State, before: seq<Step>, after: seq<Step>, chosen: seq<Chosen>, selected: int, demo: bool,
      live: bool, others: Others, made: Turns, k: nat
    ) returns (ready: seq<Step>)
    requires TurnsMade(e, start, before, after, chosen, selected, demo, live, others, made) && k < |chosen|
    ensures before <= ready <= made.trail[k + 1] <= after
    ensures var id, turn, db := chosen[k].id, made.turns[k], Run(e, start, ready).db;
            id in db.markets && Finalize(db.markets[id], turn.now).row.phase == Resolving ==>
              made.trail[k + 1] == ready + [Step(SettleOp(id, turn.batch), turn.now)]
  {
    hide Run, Meantime, EvidenceSteps, Finalize, ValidBatch;
    TurnsTrail(e, start, before, after, chosen, selected, demo, live, others, made);
    TrailGrows(made, before, after, 0, k);
    TrailGrows(made, before, after, k + 1, |chosen|);
    assert TurnAt(e, start, chosen[k], selected, demo, live, others, made, k);
    var c, turn := chosen[k], made.turns[k];
    var began := if k == 0 then selected else made.turns[k - 1].now;
    var first := made.trail[k] + Meantime(e, start, made.trail[k], others, 2 + 2 * k, began);
    var known := first + EvidenceSteps(c, demo, live, turn.at, selected);
    ready := known + Meantime(e, start, known, others, 2 + 2 * k + 1, turn.at);
    assert made.trail[k] <= first <= known <= ready;
  }

  /** Every instance that a pass selects while it is being settled, or closed past its deadline, comes out
      of the pass being settled or terminal, and terminal if it had at most a hundred holders left to pay;
      unless it was terminal and old enough to be purged. */
  lemma PassSettles(
      e: Engine, start: State, steps: seq<Step>, demo: bool, live: bool, locked: set<MarketId>, others: Others, p: Pass,
      k: nat
    )
    requires SoundEngine(e) && Reachable(e, start) && LegalRun(e, start, steps)
    requires PassMade(e, start, steps, demo, live, locked, others, p) && k < |p.chosen|
    requires var db := Run(e, start, Closing(e, start, others, p)).db;
             p.chosen[k].id in db.markets && Ripe(db.markets[p.chosen[k].id], p.selected)
    ensures var id, db, end := p.chosen[k].id, Run(e, start, Closing(e, start, others, p)).db, Run(e, start, steps).db;
            id in end.markets ==>
              && (end.markets[id].row.phase == Resolving || Terminal(end.markets[id].row))
              && (|Unclaimed(db.markets[id])| <= 100 ==> Terminal(end.markets[id].row))
  {
    hide SoundEngine, Reachable, LegalRun, Run, Evolves, Meantime, TurnsMade, Closing, Finalize, Unclaimed,
         ClosesDue, ChoosesDue, PurgesExpired, Ripe;
    var before, settled := Closing(e, start, others, p), p.made.trail[|p.made.trail| - 1];
    assert settled <= steps;
    TurnsTrail(e, start, before, settled, p.chosen, p.selected, demo, live, others, p.made);
    var ready := ChosenTurn(e, start, before, settled, p.chosen, p.selected, demo, live, others, p.made, k);
    TurnsAreLater(e, start, before, settled, p.chosen, p.selected, demo, live, others, p.made, k);
    PassTurn(e, start, steps, before, ready, p.made.trail[k + 1], p.chosen[k].id, p.selected, p.made.turns[k]);
  }

  /** A ripe market before, through and after its turn. */
  lemma PassTurn(
      e: Engine, start: State, steps: seq<Step>, before: seq<Step>, ready: seq<Step>, after: seq<Step>, id: MarketId,
      selected: int, turn: Turn
    )
    requires SoundEngine(e) && Reachable(e, start) && LegalRun(e, start, steps)
    requires before <= ready <= after <= steps && selected <= turn.now
    requires id in Run(e, start, before).db.markets && Ripe(Run(e, start, before).db.markets[id], selected)
    requires var db := Run(e, start, ready).db;
             id in db.markets && Finalize(db.markets[id], turn.now).row.phase == Resolving ==>
               after == ready + [Step(SettleOp(id, turn.batch), turn.now)]
    ensures var db, end := Run(e, start, before).db, Run(e, start, steps).db;
            id in end.markets ==>
              && (end.markets[id].row.phase == Resolving || Terminal(end.markets[id].row))
              && (|Unclaimed(db.markets[id])| <= 100 ==> Terminal(end.markets[id].row))
  {
    hide SoundEngine, Reachable, LegalRun, Run, Finalize, Unclaimed, MarketEvolves;
    PointsEvolve(e, start, steps, before, ready);
    PointsEvolve(e, start, steps, ready, after);
    PointsEvolve(e, start, steps, after, steps);
    if id in Run(e, start, steps).db.markets {
      var first, mid := Run(e, start, before).db.markets[id], Run(e, start, ready).db.markets[id];
      UnclaimedShrinks(first, mid);
      if Ripe(mid, turn.now) {
        RipeIsFinal(e, Run(e, start, ready), id, turn.now);
        TurnSettles(e, start, ready, id, turn.batch, turn.now);
      } else {
        UnclaimedShrinks(mid, Run(e, start, after).db.markets[id]);
      }
      UnclaimedShrinks(Run(e, start, after).db.markets[id], Run(e, start, steps).db.markets[id]);
    }
  }
}
