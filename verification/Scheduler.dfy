/** One scheduler pass over a series, while rival schedulers and every other transaction act between
    its steps. */
module Scheduler {
  import opened Wrappers
  import opened PricingEngine
  import opened Books
  import opened Rules
  import opened Exchange
  import opened Invariant
  import opened Transactions
  import opened Evolution
  import opened Runs
  import opened Audit
  import opened Theorems
  import opened Schedule
  import opened Effects

  /** The slot has its instance, or had one whose retention is over. */
  ghost predicate SlotKept(s: Series, st: State, slot: int) {
    SlotTaken(st.db, BracketTerms(s, slot)) || BracketTerms(s, slot).deadline + BRACKET_RETENTION_MS <= st.clock
  }

  /** What holds of the state before, between and after the steps of a pass. */
  ghost predicate Healthy(e: Engine, s: Series, st: State) {
    && Reachable(e, st) && Inv(e, st.db, st.clock)
    && SlotsUnique(st.db) && SeriesOk(s, st.db, st.clock) && CategoriesKept(s, st.db)
  }

  lemma GenesisIsHealthy(e: Engine, s: Series)
    ensures Healthy(e, s, Genesis())
  {
    hide Inv, Audited;
    GenesisIsSound(e);
    assert LegalRun(e, Genesis(), []) && Run(e, Genesis(), []) == Genesis();
  }

  /** Whatever the others do, they do it legally; and only passes create brackets of the series. */
  ghost predicate LegalRivals(e: Engine, s: Series, rivals: (int, State) -> seq<Step>) {
    forall k, st :: LegalRun(e, st, rivals(k, st))
      && forall j :: 0 <= j < |rivals(k, st)| ==> FromPass(s, rivals(k, st)[j].op, rivals(k, st)[j].now)
  }

  lemma RunsJoin(e: Engine, s: State, a: seq<Step>, b: seq<Step>)
    requires LegalRun(e, s, a) && LegalRun(e, Run(e, s, a), b)
    ensures LegalRun(e, s, a + b) && Run(e, s, a + b) == Run(e, Run(e, s, a), b)
  {
    hide LegalStep, Run;
    var all := a + b;
    assert all[..|a|] == a && all[|a|..] == b;
    RunSplits(e, s, all, |a|);
    forall k | 0 <= k < |all| ensures LegalStep(Run(e, s, all[..k]), all[k]) {
      if k < |a| {
        assert all[..k] == a[..k];
      } else {
        assert all[..k][..|a|] == a && all[..k][|a|..] == b[..k - |a|];
        RunSplits(e, s, all[..k], |a|);
      }
    }
  }

  lemma ReachableOn(e: Engine, st: State, steps: seq<Step>)
    requires Reachable(e, st) && LegalRun(e, st, steps)
    ensures Reachable(e, Run(e, st, steps))
  {
    hide LegalRun, Run;
    var before :| LegalRun(e, Genesis(), before) && Run(e, Genesis(), before) == st;
    RunsJoin(e, Genesis(), before, steps);
  }

  lemma StepKeepsSlot(e: Engine, s: Series, st: State, step: Step, slot: int)
    requires SoundEngine(e) && Inv(e, st.db, st.clock) && SeriesOk(s, st.db, st.clock) && st.clock <= step.now
    requires SlotKept(s, st, slot)
    ensures SlotKept(s, Next(e, st, step), slot)
  {
    hide Inv, SoundEngine, Apply;
    if Apply(e, st.db, step.op, step.now).Ok? && SlotTaken(st.db, BracketTerms(s, slot)) {
      ApplyKeepsTerms(e, st.db, st.clock, step.op, step.now);
      var i :| i in st.db.markets && st.db.markets[i].row.terms.template == s.template && st.db.markets[i].row.terms.closeMs == slot;
      var k :| IsBracket(s, st.db.markets[i].row.terms, k);
      assert st.db.markets[i].row.terms == BracketTerms(s, slot);
    }
  }

  lemma {:induction false} RunKeepsSlot(e: Engine, s: Series, st: State, steps: seq<Step>, slot: int)
    requires SoundEngine(e) && Inv(e, st.db, st.clock) && LegalRun(e, st, steps)
    requires SlotsUnique(st.db) && SeriesOk(s, st.db, st.clock) && CategoriesKept(s, st.db) && SlotKept(s, st, slot)
    requires forall k :: 0 <= k < |steps| ==> FromPass(s, steps[k].op, steps[k].now)
    ensures SlotKept(s, Run(e, st, steps), slot)
  {
    hide Inv, SoundEngine, SlotsUnique, SeriesOk, CategoriesKept, FromPass, SlotKept, Apply, Legal;
    if steps != [] {
      var n := |steps| - 1;
      PrefixIsLegal(e, st, steps, n);
      RunKeepsSlot(e, s, st, steps[..n], slot);
      RunKeepsInv(e, st, steps[..n]);
      RunKeepsSeries(e, s, st, steps[..n]);
      StepKeepsSlot(e, s, Run(e, st, steps[..n]), steps[n], slot);
    }
  }

  /** A legal run from a healthy state keeps it healthy and keeps every slot. */
  lemma RunKeepsHealthy(e: Engine, s: Series, st: State, steps: seq<Step>)
    requires SoundEngine(e) && Healthy(e, s, st) && LegalRun(e, st, steps)
    requires forall k :: 0 <= k < |steps| ==> FromPass(s, steps[k].op, steps[k].now)
    ensures Healthy(e, s, Run(e, st, steps)) && st.clock <= Run(e, st, steps).clock
    ensures forall slot :: SlotKept(s, st, slot) ==> SlotKept(s, Run(e, st, steps), slot)
  {
    hide Inv, SoundEngine, SlotsUnique, SeriesOk, CategoriesKept, FromPass, SlotKept, Run, LegalRun, Reachable, Evolves;
    ReachableOn(e, st, steps);
    RunKeepsInv(e, st, steps);
    RunKeepsSeries(e, s, st, steps);
    RunEvolves(e, st, steps);
    forall slot | SlotKept(s, st, slot) ensures SlotKept(s, Run(e, st, steps), slot) {
      RunKeepsSlot(e, s, st, steps, slot);
    }
  }

  /** The creation of a bracket is itself such a run, and leaves the slot kept unless it fails for a
      reason other than a rival having been first. */
  lemma CreationKeepsHealthy(e: Engine, s: Series, demo: bool, st: State, id: MarketId, pass: int, k: int)
    requires SoundEngine(e) && Healthy(e, s, st) && pass <= st.clock
    requires PassIndex(s, pass, k) && Eligible(s, Slot(s, k))
    ensures var terms := BracketTerms(s, Slot(s, k));
            var created := CreateTx(e, st.db, id, terms, demo, st.clock);
            && (created.Ok? ==>
                  && Healthy(e, s, State(created.value, st.clock)) && SlotKept(s, State(created.value, st.clock), Slot(s, k))
                  && forall slot :: SlotKept(s, st, slot) ==> SlotKept(s, State(created.value, st.clock), slot))
            && (created == Err(Conflict(InstanceExists)) ==> SlotKept(s, st, Slot(s, k)))
  {
    hide Inv, SoundEngine, Reachable, SlotsUnique, SeriesOk, CategoriesKept, PassIndex, Eligible;
    var terms := BracketTerms(s, Slot(s, k));
    var step := Step(CreateOp(id, terms, demo), st.clock);
    var created := CreateTx(e, st.db, id, terms, demo, st.clock);
    CreationOutcome(e, st.db, id, terms, demo, st.clock);
    if created.Ok? {
      assert FromPass(s, step.op, step.now) by {
        assert IsBracket(s, terms, k);
      }
      OneStep(e, st, step);
      RunKeepsHealthy(e, s, st, [step]);
    }
  }

  lemma OneStep(e: Engine, st: State, step: Step)
    requires LegalStep(st, step)
    ensures LegalRun(e, st, [step]) && Run(e, st, [step]) == Next(e, st, step)
  {
    assert [step][..0] == [];
  }

  lemma CreationOutcome(e: Engine, db: Db, id: MarketId, terms: Terms, demo: bool, now: int)
    requires SoundEngine(e)
    ensures CreateTx(e, db, id, terms, demo, now).Ok? ==>
      var next := CreateTx(e, db, id, terms, demo, now).value;
      id in next.markets && next.markets[id].row.terms == terms && SlotTaken(next, terms)
    ensures CreateTx(e, db, id, terms, demo, now) == Err(Conflict(InstanceExists)) ==>
      SlotTaken(db, terms)
  {
    hide SpecValid, ValidRule, CategoryFits;
    assert FundsOpening(e, terms.liquidity, OutcomeCount(terms.rule));
    if CreateTx(e, db, id, terms, demo, now).Ok? {
      assert CreateTx(e, db, id, terms, demo, now).value.markets[id].row.terms == terms;
    }
  }

  lemma InPass(s: Series, now: int, slot: int)
    requires s.interval > 0 && now < slot <= now + s.concurrency * s.interval && (slot - s.anchor) % s.interval == 0
    ensures var k := (slot - s.anchor) / s.interval;
            Slot(s, k) == slot && FirstIndex(s, now) <= k < FirstIndex(s, now) + s.concurrency
  {
    var k := (slot - s.anchor) / s.interval;
    assert k * s.interval == slot - s.anchor;
    PassCoversHorizon(s, now, k);
  }

  /** The pass. Rivals act before each existence query and between it and the creation. When it
      succeeds, every eligible grid slot of (now, now + concurrency·interval] has its instance: every
      scheduled one, that is. Whatever the rivals did, no slot has two, and every instance of the series
      is the market of a scheduled grid point. */
  method SpawnSeriesBrackets(
    e: Engine, s: Series, demo: bool, start: State, now: int, ids: int -> MarketId, rivals: (int, State) -> seq<Step>
  ) returns (st: State, r: Result<nat>)
    requires SoundEngine(e) && ValidSeries(e, s, demo) && LegalRivals(e, s, rivals)
    requires Healthy(e, s, start) && now <= start.clock
    ensures Healthy(e, s, st) && start.clock <= st.clock
    ensures r.Ok? ==> forall slot {:trigger SlotKept(s, st, slot)} ::
      now < slot <= now + s.concurrency * s.interval && (slot - s.anchor) % s.interval == 0 && Eligible(s, slot) ==>
        SlotKept(s, st, slot)
    ensures r.Ok? ==> forall slot {:trigger SlotKept(s, st, slot)} ::
      0 <= slot && now < slot <= now + s.concurrency * s.interval && (slot - s.anchor) % s.interval == 0 && Scheduled(s, slot) ==>
        SlotKept(s, st, slot)
    ensures AllScheduled(s, st.db, st.clock)
    ensures r.Ok? ==> r.value <= s.concurrency
    ensures r.Ok? && NoRivals(rivals) ==> Grew(start.db, st.db, r.value)
    ensures |Unclosed(s, st.db, st.clock)| <= s.concurrency
  {
    hide ValidSeries, SoundEngine, SlotKept, CreateTx, Run, LegalRun, FromPass, Eligible, Scheduled, SeriesOk,
         SlotsUnique, CategoriesKept, AllScheduled, NoRivals, Grew, Inv, Reachable;
    ValidInterval(e, s, demo);
    var first, spawned := FirstIndex(s, now), 0;
    st := start;
    r := Ok(0);
    var k := first;
    NothingGrew(start.db);
    while k < first + s.concurrency
      invariant first <= k <= first + s.concurrency && 0 <= spawned <= k - first
      invariant Healthy(e, s, st) && start.clock <= st.clock
      invariant NoRivals(rivals) ==> Grew(start.db, st.db, spawned)
      invariant forall j :: first <= j < k && Eligible(s, Slot(s, j)) ==> SlotKept(s, st, Slot(s, j))
    {
      RunKeepsHealthy(e, s, st, rivals(2 * k, st));
      RivalsStay(e, st, rivals, 2 * k);
      st := Run(e, st, rivals(2 * k, st));
      var slot := Slot(s, k);
      if Eligible(s, slot) {
        var spec := BracketTerms(s, slot);
        if !SlotTaken(st.db, spec) {
          RunKeepsHealthy(e, s, st, rivals(2 * k + 1, st));
          RivalsStay(e, st, rivals, 2 * k + 1);
          st := Run(e, st, rivals(2 * k + 1, st));
          CreationKeepsHealthy(e, s, demo, st, ids(k), now, k);
          match CreateTx(e, st.db, ids(k), spec, demo, st.clock)
          case Ok(db) =>
            OneMoreMarket(e, start.db, st.db, ids(k), spec, demo, st.clock, spawned);
            st, spawned := State(db, st.clock), spawned + 1;
          case Err(error) =>
            if error != Conflict(InstanceExists) {
              UnclosedBound(e, s, demo, st);
              BracketsAreScheduled(e, s, demo, st);
              r := Err(error);
              return;
            }
        } else {
          TakenIsKept(s, st, slot);
        }
      }
      k := k + 1;
    }
    UnclosedBound(e, s, demo, st);
    BracketsAreScheduled(e, s, demo, st);
    forall slot | 0 <= slot ensures Eligible(s, slot) <==> Scheduled(s, slot) {
      EligibleIsScheduled(e, s, demo, slot);
    }
    forall slot | now < slot <= now + s.concurrency * s.interval && (slot - s.anchor) % s.interval == 0 && Eligible(s, slot)
      ensures SlotKept(s, st, slot)
    {
      InPass(s, now, slot);
    }
    r := Ok(spawned);
  }

  ghost predicate NoRivals(rivals: (int, State) -> seq<Step>) {
    forall k, st :: rivals(k, st) == []
  }

  lemma RivalsStay(e: Engine, st: State, rivals: (int, State) -> seq<Step>, k: int)
    ensures NoRivals(rivals) ==> Run(e, st, rivals(k, st)) == st
  {}

  /** So many markets more, and none fewer. */
  ghost predicate Grew(start: Db, db: Db, n: int) {
    start.markets.Keys <= db.markets.Keys && |db.markets.Keys - start.markets.Keys| == n
  }

  lemma NothingGrew(db: Db)
    ensures Grew(db, db, 0)
  {
    assert db.markets.Keys - db.markets.Keys == {};
  }

  lemma GrewByOne(start: Db, db: Db, next: Db, id: MarketId, n: int)
    requires Grew(start, db, n) && id !in db.markets && next.markets.Keys == db.markets.Keys + {id}
    ensures Grew(start, next, n + 1)
  {
    assert next.markets.Keys - start.markets.Keys == (db.markets.Keys - start.markets.Keys) + {id};
  }

  lemma CreatedKeys(e: Engine, db: Db, next: Db, id: MarketId, terms: Terms)
    requires Created(e, db, next, id, terms)
    ensures id !in db.markets && next.markets.Keys == db.markets.Keys + {id}
  {
    hide Allowed, Posted, SlotTaken, ValidRule, TimesOrdered, NewMarket;
  }

  /** A creation adds its own market and no other. */
  lemma OneMoreMarket(e: Engine, start: Db, db: Db, id: MarketId, terms: Terms, demo: bool, now: int, n: int)
    requires CreateTx(e, db, id, terms, demo, now).Ok?
    ensures Grew(start, db, n) ==> Grew(start, CreateTx(e, db, id, terms, demo, now).value, n + 1)
  {
    hide CreateTx, Created, Grew;
    CreateIsCreated(e, db, id, terms, demo, now);
    CreatedKeys(e, db, CreateTx(e, db, id, terms, demo, now).value, id, terms);
    if Grew(start, db, n) {
      GrewByOne(start, db, CreateTx(e, db, id, terms, demo, now).value, id, n);
    }
  }

  lemma TakenIsKept(s: Series, st: State, slot: int)
    requires SlotTaken(st.db, BracketTerms(s, slot))
    ensures SlotKept(s, st, slot)
  {}

  lemma UnclosedBound(e: Engine, s: Series, demo: bool, st: State)
    requires ValidSeries(e, s, demo) && Healthy(e, s, st)
    ensures |Unclosed(s, st.db, st.clock)| <= s.concurrency
  {
    hide Inv, Reachable, Unclosed;
    AtMostConcurrencyUnclosed(e, s, demo, st.db, st.clock);
  }

  /** While its slot is ahead of the clock, a bracket of a valid series fails to be created only
      because the slot is taken, its creator or id unfit, or the budget spent. */
  lemma BracketIsCreated(
      e: Engine, s: Series, demo: bool, db: Db, clock: int, id: MarketId, pass: int, slot: int, now: int
    )
    requires SoundEngine(e) && Inv(e, db, clock) && ValidSeries(e, s, demo) && CategoriesKept(s, db)
    requires pass <= now && pass < slot <= pass + s.concurrency * s.interval
    ensures CreateTx(e, db, id, BracketTerms(s, slot), demo, now).Ok? <==>
      && now < slot && !SlotTaken(db, BracketTerms(s, slot))
      && (s.creator.Some? ==> User(s.creator.value) in db.books.balances)
      && Reserve(id) !in db.books.balances
      && e.funding(s.liquidity, OutcomeCount(s.rule)).value <= BalanceOf(db.books, Treasury)
  {
    hide Inv, SoundEngine, CreateTx, SlotTaken, SpecValid, ValidRule, ValidSeries;
    CreationCommits(e, db, clock, id, BracketTerms(s, slot), demo, now);
    SpecValidIffAhead(e, s, demo, pass, slot, now);
  }
}
