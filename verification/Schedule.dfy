/** Recurring series: the bracket grid, Singapore wall-clock arithmetic, bracket specs and titles,
    and the scheduler that keeps the rolling horizon filled. */
module Schedule {
  import opened Wrappers
  import opened PricingEngine
  import opened Fee
  import opened Books
  import opened Rules
  import opened Exchange
  import opened Invariant
  import opened Evolution
  import opened Runs
  import opened Audit
  import opened Theorems
  import Text

  const MINUTE_MS := 60_000
  const DAY_MS := 86_400_000
  const FINALIZE_MARGIN_MS := 1_000
  const DEADLINE_MARGIN_MS := 60_000

  datatype Series = Series(
    template: string,
    title: string,
    criterion: string,
    rule: Rule,
    source: string,
    simulated: bool,
    authority: Authority,
    creator: Option<UserId>,
    feeCharged: bool,
    liquidity: int,
    interval: int,
    startMinute: int,
    endMinute: int,
    days: set<int>,
    concurrency: int,
    end: Option<int>,
    anchor: int)

  // ---- Wall-clock arithmetic ------------------------------------------------------------------------

  /** The window check divides as the machine does, truncating toward zero. */
  function WindowMinute(t: int): int {
    Remainder(Quotient(t, MINUTE_MS) + 8 * 60, 1440)
  }

  /** Titles and days divide toward minus infinity. */
  function SgtMinute(t: int): (m: int)
    ensures 0 <= m < 1440
  {
    (t / MINUTE_MS + 8 * 60) % 1440
  }

  function SgtIsoDay(t: int): (d: int)
    ensures 1 <= d <= 7
  {
    ((t + 8 * 3_600_000) / DAY_MS + 3) % 7 + 1
  }

  predicate InsideActiveWindow(slot: int, startMinute: int, endMinute: int) {
    startMinute <= WindowMinute(slot) < endMinute
  }

  /** The two divisions name the same minute of the day for every instant from the epoch on; before
      it, exactly for whole minutes of the epoch's own Singapore day and for Singapore midnights. */
  lemma MinutesAgree(t: int)
    ensures WindowMinute(t) == SgtMinute(t)
       <==> 0 <= t || (t % MINUTE_MS == 0 && (-8 * 60 * MINUTE_MS <= t || SgtMinute(t) == 0))
  {
    if t < 0 {
      TruncatedMinute(t);
      var whole := t % MINUTE_MS == 0;
      var x := (if whole then t / MINUTE_MS else t / MINUTE_MS + 1) + 480;
      TruncatedRemainder(x);
      assert t == t / MINUTE_MS * MINUTE_MS + t % MINUTE_MS;
      if whole {
        assert SgtMinute(t) == x % 1440;
      } else {
        assert SgtMinute(t) == (x - 1) % 1440;
      }
    }
  }

  lemma TruncatedRemainder(x: int)
    ensures Remainder(x, 1440) == if 0 <= x || x % 1440 == 0 then x % 1440 else x % 1440 - 1440
  {
    if x < 0 {
      var q, r := x / 1440, x % 1440;
      assert x == q * 1440 + r;
      assert -x == (-q) * 1440 - r;
      assert (-x) / 1440 == if r == 0 then -q else -q - 1;
    }
  }

  /** For a negative instant, truncation lands on the next whole minute. */
  lemma TruncatedMinute(t: int)
    requires t < 0
    ensures Quotient(t, MINUTE_MS) == if t % MINUTE_MS == 0 then t / MINUTE_MS else t / MINUTE_MS + 1
  {}

  /** Days advance through the ISO week, one a day; the epoch was a Thursday. */
  lemma DaysAdvance(t: int)
    ensures SgtIsoDay(t + DAY_MS) == SgtIsoDay(t) % 7 + 1
    ensures SgtIsoDay(t + 7 * DAY_MS) == SgtIsoDay(t)
    ensures SgtIsoDay(0) == 4
  {
    var d := (t + 8 * 3_600_000) / DAY_MS;
    assert (t + DAY_MS + 8 * 3_600_000) / DAY_MS == d + 1;
    assert (t + 7 * DAY_MS + 8 * 3_600_000) / DAY_MS == d + 7;
  }

  /** Minute and day together are the Singapore calendar position of an instant. */
  lemma DayAndMinute(t: int)
    ensures var d := (t + 8 * 3_600_000) / DAY_MS;
            d * DAY_MS <= t + 8 * 3_600_000 - SgtMinute(t) * MINUTE_MS < d * DAY_MS + MINUTE_MS
  {
    var u := t + 8 * 3_600_000;
    var m := u / MINUTE_MS;
    assert t / MINUTE_MS + 480 == m;
    assert u / DAY_MS == m / 1440;
  }

  // ---- Titles ------------------------------------------------------------------------------------------

  lemma DecimalOfTwo(a: char, b: char)
    ensures Decimal([a, b]) == 10 * (a as int - '0' as int) + (b as int - '0' as int)
  {
    assert [a, b][..1] == [a] && [a][..0] == [];
    assert Decimal([a]) == a as int - '0' as int;
  }

  function Two(n: int): (s: string)
    requires 0 <= n < 100
    ensures |s| == 2 && Digit(s[0]) && Digit(s[1]) && Decimal(s) == n
  {
    DecimalOfTwo(('0' as int + n / 10) as char, ('0' as int + n % 10) as char);
    [('0' as int + n / 10) as char, ('0' as int + n % 10) as char]
  }

  /** The hour and the minute of the Singapore day, in two digits each. */
  function SgtHhmm(t: int): (s: string)
    ensures |s| == 5 && Digit(s[0]) && Digit(s[1]) && s[2] == ':' && Digit(s[3]) && Digit(s[4])
    ensures 60 * Decimal(s[..2]) + Decimal(s[3..]) == SgtMinute(t) && Decimal(s[3..]) < 60
  {
    assert (Two(SgtMinute(t) / 60) + ":" + Two(SgtMinute(t) % 60))[..2] == Two(SgtMinute(t) / 60);
    assert (Two(SgtMinute(t) / 60) + ":" + Two(SgtMinute(t) % 60))[3..] == Two(SgtMinute(t) % 60);
    Two(SgtMinute(t) / 60) + ":" + Two(SgtMinute(t) % 60)
  }

  /** " · HH:MM to HH:MM" */
  function TitleSuffix(slot: int, interval: int): (s: string)
    ensures |s| == 17
  {
    " \U{B7} " + SgtHhmm(slot) + " to " + SgtHhmm(slot + interval)
  }

  /** The number of leading characters that fit into `room` bytes. */
  function Fitting(text: string, room: nat): (n: nat)
    ensures n <= |text| && Text.Bytes(text[..n]) <= room
    ensures forall i :: n < i <= |text| ==> room < Text.Bytes(text[..i])
  {
    assert text[..|text|] == text;
    if Text.Bytes(text) <= room then |text|
    else
      var shorter := text[..|text| - 1];
      assert forall i :: 0 <= i <= |shorter| ==> shorter[..i] == text[..i];
      Fitting(shorter, room)
  }

  /** A bracket's title: as much of the series' title as leaves room for the bracket's times. */
  function BracketName(base: string, slot: int, interval: int): string {
    base[..Fitting(base, 222)] + TitleSuffix(slot, interval)
  }

  /** A byte offset between two characters, or at an end. */
  predicate CharBoundary(text: string, offset: int) {
    exists n :: 0 <= n <= |text| && Text.Bytes(text[..n]) == offset
  }

  /** The characters before a boundary are the ones that fit: offsets above it are no boundaries. */
  lemma CutFits(text: string, cut: nat, n: nat)
    requires n <= |text| && Text.Bytes(text[..n]) == cut <= 222
    requires forall i :: cut < i <= Text.Bytes(text) && i <= 222 ==> !CharBoundary(text, i)
    ensures n == Fitting(text, 222)
  {
    var f := Fitting(text, 222);
    assert text[..|text|] == text;
    if n < f {
      Text.BytesGrow(text, n, f);
      Text.BytesGrow(text, f, |text|);
      assert CharBoundary(text, Text.Bytes(text[..f]));
    }
  }

  /** Cuts the base title at the last byte offset that is a character boundary and leaves room. */
  method BracketTitle(base: string, slot: int, interval: int) returns (title: string)
    ensures title == BracketName(base, slot, interval)
  {
    var suffix := TitleSuffix(slot, interval);
    SuffixBytes(slot, interval);
    var length := Text.Bytes(suffix);
    var room := if length <= 240 then 240 - length else 0;
    var cut := if Text.Bytes(base) <= room then Text.Bytes(base) else room;
    assert base[..|base|] == base && Text.Bytes(base[..0]) == 0;
    while !CharBoundary(base, cut)
      invariant 0 <= cut <= Text.Bytes(base) && cut <= 222
      invariant forall i :: cut < i <= Text.Bytes(base) && i <= 222 ==> !CharBoundary(base, i)
      decreases cut
    {
      cut := cut - 1;
    }
    var n :| 0 <= n <= |base| && Text.Bytes(base[..n]) == cut;
    CutFits(base, cut, n);
    title := base[..n] + suffix;
  }

  lemma {:induction false} AsciiBytes(s: string)
    requires forall i :: 0 <= i < |s| ==> s[i] < '\U{80}'
    ensures Text.Bytes(s) == |s|
  {
    if s != "" {
      AsciiBytes(s[..|s| - 1]);
    }
  }

  /** The middle dot takes two bytes. */
  lemma SuffixBytes(slot: int, interval: int)
    ensures Text.Bytes(TitleSuffix(slot, interval)) == 18
    ensures Text.Bytes(TitleSuffix(slot, interval)[1..]) == 17
  {
    var times := " " + SgtHhmm(slot) + " to " + SgtHhmm(slot + interval);
    AsciiBytes(times);
    AsciiBytes(" ");
    assert "\U{B7}"[..0] == "";
    assert Text.Bytes("\U{B7}") == 2;
    Text.BytesAdd("\U{B7}", times);
    Text.BytesAdd(" ", "\U{B7}" + times);
    assert TitleSuffix(slot, interval) == " " + ("\U{B7}" + times);
  }

  /** Every bracket's title is publishable, whatever the series' title. */
  lemma BracketNameIsValid(base: string, slot: int, interval: int)
    ensures Text.Within(BracketName(base, slot, interval), 5, 240)
    ensures Text.Bytes(Text.Trim(BracketName(base, slot, interval))) >= 17
  {
    hide Text.Bytes, Text.IsSpace, Fitting, TitleSuffix;
    var cut, suffix := base[..Fitting(base, 222)], TitleSuffix(slot, interval);
    SuffixBytes(slot, interval);
    SuffixEnds(slot, interval);
    Text.BytesAdd(cut, suffix);
    assert cut + suffix == (cut + suffix[..1]) + suffix[1..];
    Text.TrimStartKeeps(cut + suffix[..1], suffix[1..]);
  }

  lemma SuffixEnds(slot: int, interval: int)
    ensures var s := TitleSuffix(slot, interval);
            !Text.IsSpace(s[1]) && !Text.IsSpace(s[|s| - 1])
  {}

  // ---- The grid ----------------------------------------------------------------------------------------

  function Slot(s: Series, k: int): int {
    s.anchor + k * s.interval
  }

  /** The first grid index strictly after `now`. */
  function FirstIndex(s: Series, now: int): int
    requires s.interval > 0
  {
    (now - s.anchor) / s.interval + 1
  }

  predicate Eligible(s: Series, slot: int) {
    && (s.end.Some? ==> slot < s.end.value)
    && InsideActiveWindow(slot, s.startMinute, s.endMinute)
    && SgtIsoDay(slot) in s.days
  }

  /** The day is one of the series' days, counting Singapore days from Thursday (4), 1 January 1970. */
  ghost predicate OnSeriesDay(s: Series, day: int) {
    exists d :: d in s.days && (day + 4 - d) % 7 == 0
  }

  /** The instant lies on that Singapore day, eight hours ahead of UTC, and within the series' hours. */
  ghost predicate InSeriesHours(s: Series, t: int, day: int) {
    s.startMinute * MINUTE_MS <= t + 8 * 3_600_000 - day * DAY_MS < s.endMinute * MINUTE_MS
  }

  /** Before the series' end, on one of its days and within its hours. */
  ghost predicate Scheduled(s: Series, slot: int) {
    && (s.end.Some? ==> slot < s.end.value)
    && exists day :: InSeriesHours(s, slot, day) && OnSeriesDay(s, day)
  }

  /** What publishing a series validates; the template's id is generated. */
  predicate ValidSeries(e: Engine, s: Series, demo: bool) {
    && Text.Within(s.criterion, 5, 4000) && Text.Within(s.source, 1, 120) && 0 < Text.Bytes(s.template) <= 80
    && (s.simulated ==> demo && s.source == SIMULATOR_SOURCE)
    && MINUTE_MS <= s.interval <= DAY_MS
    && 1 <= s.concurrency <= 50
    && 0 <= s.startMinute < s.endMinute <= 1439
    && s.days != {} && (forall d :: d in s.days ==> 1 <= d <= 7)
    && ValidRule(s.rule) && e.funding(s.liquidity, OutcomeCount(s.rule)).Ok?
  }

  lemma DayOfInstant(s: Series, t: int, day: int)
    requires 0 <= s.startMinute < s.endMinute <= 1439
    ensures InSeriesHours(s, t, day)
       <==> day == (t + 8 * 3_600_000) / DAY_MS && s.startMinute <= SgtMinute(t) < s.endMinute
  {
    DayAndMinute(t);
    var u, d := t + 8 * 3_600_000, (t + 8 * 3_600_000) / DAY_MS;
    assert d * DAY_MS <= u < d * DAY_MS + DAY_MS;
    if day < d {
      Scale(DAY_MS, day + 1, d);
    } else if d < day {
      Scale(DAY_MS, d + 1, day);
    }
  }

  lemma DayInDays(s: Series, t: int)
    requires forall d :: d in s.days ==> 1 <= d <= 7
    ensures OnSeriesDay(s, (t + 8 * 3_600_000) / DAY_MS) <==> SgtIsoDay(t) in s.days
  {
    var day := (t + 8 * 3_600_000) / DAY_MS;
    assert (day + 4 - SgtIsoDay(t)) % 7 == 0;
  }

  /** A pass takes up exactly the scheduled instants, wherever the two divisions name the same minute;
      from 1970 on they do. */
  lemma EligibleIsScheduled(e: Engine, s: Series, demo: bool, slot: int)
    requires ValidSeries(e, s, demo) && (0 <= slot || WindowMinute(slot) == SgtMinute(slot))
    ensures Eligible(s, slot) <==> Scheduled(s, slot)
  {
    hide WindowMinute, SgtMinute, SgtIsoDay, OnSeriesDay, InSeriesHours, ValidRule;
    MinutesAgree(slot);
    DayInDays(s, slot);
    var day := (slot + 8 * 3_600_000) / DAY_MS;
    DayOfInstant(s, slot, day);
    forall other | InSeriesHours(s, slot, other) ensures other == day {
      DayOfInstant(s, slot, other);
    }
  }

  function BracketTerms(s: Series, slot: int): Terms {
    Terms(s.template, BracketName(s.title, slot, s.interval), s.criterion, s.rule, s.source, s.simulated, s.authority, true, s.creator, s.feeCharged, s.liquidity,
          slot, slot, slot + s.interval, slot + s.interval + FINALIZE_MARGIN_MS, slot + s.interval + DEADLINE_MARGIN_MS)
  }

  /** The indexes a pass goes through are exactly the grid points of (now, now + concurrency·interval]. */
  lemma PassCoversHorizon(s: Series, now: int, k: int)
    requires s.interval > 0
    ensures FirstIndex(s, now) <= k < FirstIndex(s, now) + s.concurrency
       <==> now < Slot(s, k) <= now + s.concurrency * s.interval
  {
    var d, i := now - s.anchor, s.interval;
    var q := d / i;
    assert q * i <= d < q * i + i;
    if k <= q {
      Scale(i, k, q);
    } else {
      Scale(i, q + 1, k);
    }
    if k <= q + s.concurrency {
      Scale(i, k, q + s.concurrency);
    } else {
      Scale(i, q + s.concurrency + 1, k);
    }
    assert (q + s.concurrency) * i == q * i + s.concurrency * i;
    assert (q + s.concurrency + 1) * i == q * i + s.concurrency * i + i;
  }

  lemma Scale(i: int, a: int, b: int)
    requires 0 < i && a <= b
    ensures a * i <= b * i
  {}

  /** A bracket of a valid series passes instance validation exactly while its slot is ahead of the
      clock, however long after the pass began. */
  lemma SpecValidIffAhead(e: Engine, s: Series, demo: bool, pass: int, slot: int, now: int)
    requires ValidSeries(e, s, demo) && pass <= now && pass < slot <= pass + s.concurrency * s.interval
    ensures var terms := BracketTerms(s, slot);
            && ValidRule(terms.rule) && e.funding(terms.liquidity, OutcomeCount(terms.rule)).Ok?
            && TextValid(terms) && ModeValid(terms, demo)
            && (TimesValid(terms, now) <==> now < slot)
  {
    hide BracketName, Text.Within, ValidRule;
    BracketNameIsValid(s.title, slot, s.interval);
    Scale(s.interval, s.concurrency, 50);
    assert 50 * s.interval <= 50 * DAY_MS;
  }

  /** Distinct grid slots have disjoint observation windows. */
  lemma WindowsDisjoint(s: Series, j: int, k: int)
    requires s.interval > 0 && j < k
    ensures BracketTerms(s, Slot(s, j)).observationEnd <= BracketTerms(s, Slot(s, k)).observationStart
  {
    Scale(s.interval, j + 1, k);
    assert (j + 1) * s.interval == j * s.interval + s.interval;
  }

  // ---- What runs keep ------------------------------------------------------------------------------------

  /** At most one instance for each template and close time. */
  ghost predicate SlotsUnique(db: Db) {
    forall i, j :: i in db.markets && j in db.markets && i != j ==>
      db.markets[i].row.terms.template != db.markets[j].row.terms.template
      || db.markets[i].row.terms.closeMs != db.markets[j].row.terms.closeMs
  }

  ghost predicate IsBracket(s: Series, t: Terms, k: int) {
    t == BracketTerms(s, Slot(s, k)) && Eligible(s, Slot(s, k))
  }

  /** Every instance of the series is a bracket at an eligible grid slot within its horizon. */
  ghost predicate SeriesOk(s: Series, db: Db, clock: int) {
    forall i :: i in db.markets && db.markets[i].row.terms.template == s.template ==>
      var t := db.markets[i].row.terms;
      t.closeMs <= clock + s.concurrency * s.interval && exists k :: IsBracket(s, t, k)
  }

  /** Instances of one template share the category its row names, purged or not. */
  ghost predicate CategoriesKept(s: Series, db: Db) {
    && (s.template in db.templates ==> db.templates[s.template] == CategoryOf(s.rule))
    && forall i :: i in db.markets ==> db.markets[i].row.terms.template in db.templates && CategoryFits(db, db.markets[i].row.terms)
  }

  /** A creation under the series' template comes from a scheduler pass that began no later. */
  ghost predicate FromPass(s: Series, op: Op, now: int) {
    op.CreateOp? && op.terms.template == s.template ==>
      exists pass, k :: PassIndex(s, pass, k) && pass <= now && IsBracket(s, op.terms, k)
  }

  ghost predicate PassIndex(s: Series, pass: int, k: int)
  {
    s.interval > 0 && FirstIndex(s, pass) <= k < FirstIndex(s, pass) + s.concurrency
  }

  /** Terms never change; markets disappear only once their retention has passed; and only creation
      adds one, at a free slot. */
  lemma ApplyKeepsTerms(e: Engine, db: Db, clock: int, op: Op, now: int)
    requires SoundEngine(e) && Inv(e, db, clock) && Apply(e, db, op, now).Ok?
    ensures var next := Apply(e, db, op, now).value;
            && (forall i :: i in db.markets && i in next.markets ==> next.markets[i].row.terms == db.markets[i].row.terms)
            && (forall i :: i in db.markets && i !in next.markets ==>
                  db.markets[i].row.terms.deadline + BRACKET_RETENTION_MS <= now)
            && (forall i :: i in next.markets && i !in db.markets ==>
                  && op.CreateOp? && next.markets[i].row.terms == op.terms && !SlotTaken(db, op.terms)
                  && forall j :: j in next.markets && j != i ==> j in db.markets)
  {
    hide Inv, SoundEngine, Evolves;
    ApplyEvolves(e, db, clock, op, now);
    TermsEvolve(db, Apply(e, db, op, now).value);
    MarketKeys(e, db, op, now);
  }

  lemma TermsEvolve(db: Db, next: Db)
    requires Evolves(db, next)
    ensures forall i :: i in db.markets && i in next.markets ==> next.markets[i].row.terms == db.markets[i].row.terms
  {}

  lemma MarketKeys(e: Engine, db: Db, op: Op, now: int)
    requires Apply(e, db, op, now).Ok?
    ensures var next := Apply(e, db, op, now).value;
            && (forall i :: i in db.markets && i !in next.markets ==>
                  db.markets[i].row.terms.deadline + BRACKET_RETENTION_MS <= now)
            && (forall i :: i in next.markets && i !in db.markets ==>
                  && op.CreateOp? && next.markets[i].row.terms == op.terms && !SlotTaken(db, op.terms)
                  && forall j :: j in next.markets && j != i ==> j in db.markets)
  {
    hide OpenAccount, Evaluate, InputBounded, Recheck, Fund, Post, ParseMicros, ObserveMarket, CreatorResolves,
         ResolverAnswers, PayClaims, CloseOut, Finalize, SlotTaken, SpecValid, ValidRule, CategoryFits,
         ValidName, Text.Within, Text.Trim, Text.Bytes, Due, ClosedMarket;
  }

  /** Template rows are written by creations only, and never change category. */
  lemma TemplateRows(e: Engine, db: Db, op: Op, now: int)
    requires Apply(e, db, op, now).Ok?
    ensures var next := Apply(e, db, op, now).value;
            if op.CreateOp? then
              && CategoryFits(db, op.terms)
              && next.templates == db.templates[op.terms.template := CategoryOf(op.terms.rule)]
            else next.templates == db.templates
  {
    hide Evaluate, InputBounded, Recheck, Fund, Post, ParseMicros, ObserveMarket, CreatorResolves,
         ResolverAnswers, PayClaims, CloseOut, Finalize, SlotTaken, SpecValid, ValidRule, ValidName,
         Text.Within, Text.Trim, Text.Bytes, Due, ClosedMarket;
  }

  lemma NextKeepsSlots(e: Engine, st: State, step: Step)
    requires SoundEngine(e) && Inv(e, st.db, st.clock) && SlotsUnique(st.db)
    ensures SlotsUnique(Next(e, st, step).db)
  {
    hide Inv, SoundEngine, Apply;
    if Apply(e, st.db, step.op, step.now).Ok? {
      ApplyKeepsTerms(e, st.db, st.clock, step.op, step.now);
    }
  }

  lemma NextKeepsSeries(e: Engine, s: Series, st: State, step: Step)
    requires SoundEngine(e) && Inv(e, st.db, st.clock) && st.clock <= step.now
    requires SeriesOk(s, st.db, st.clock) && FromPass(s, step.op, step.now)
    ensures SeriesOk(s, Next(e, st, step).db, step.now)
  {
    hide Inv, SoundEngine, Apply, IsBracket;
    var next := Next(e, st, step).db;
    if Apply(e, st.db, step.op, step.now).Ok? {
      ApplyKeepsTerms(e, st.db, st.clock, step.op, step.now);
    }
    forall i | i in next.markets && next.markets[i].row.terms.template == s.template
      ensures var t := next.markets[i].row.terms;
              t.closeMs <= step.now + s.concurrency * s.interval && exists k :: IsBracket(s, t, k)
    {
      if i !in st.db.markets {
        var pass, k :| PassIndex(s, pass, k) && pass <= step.now && IsBracket(s, step.op.terms, k);
        PassCoversHorizon(s, pass, k);
        BracketCloses(s, step.op.terms, k);
      }
    }
  }

  lemma BracketRule(s: Series, t: Terms, k: int)
    requires IsBracket(s, t, k)
    ensures t.rule == s.rule && t.template == s.template
  {}

  lemma NextKeepsCategories(e: Engine, s: Series, st: State, step: Step)
    requires SoundEngine(e) && Inv(e, st.db, st.clock) && CategoriesKept(s, st.db) && FromPass(s, step.op, step.now)
    ensures CategoriesKept(s, Next(e, st, step).db)
  {
    hide Inv, SoundEngine, Apply, IsBracket;
    if Apply(e, st.db, step.op, step.now).Ok? {
      ApplyKeepsTerms(e, st.db, st.clock, step.op, step.now);
      TemplateRows(e, st.db, step.op, step.now);
      if step.op.CreateOp? && step.op.terms.template == s.template {
        var pass, k :| PassIndex(s, pass, k) && pass <= step.now && IsBracket(s, step.op.terms, k);
        BracketRule(s, step.op.terms, k);
      }
    }
  }

  lemma BracketCloses(s: Series, t: Terms, k: int)
    requires IsBracket(s, t, k)
    ensures t.closeMs == Slot(s, k)
  {}

  /** Over every run, slots are never doubled and the series stays within its horizon. */
  lemma {:induction false} RunKeepsSeries(e: Engine, s: Series, st: State, steps: seq<Step>)
    requires SoundEngine(e) && Inv(e, st.db, st.clock) && LegalRun(e, st, steps)
    requires SlotsUnique(st.db) && SeriesOk(s, st.db, st.clock) && CategoriesKept(s, st.db)
    requires forall k :: 0 <= k < |steps| ==> FromPass(s, steps[k].op, steps[k].now)
    ensures var end := Run(e, st, steps); SlotsUnique(end.db) && SeriesOk(s, end.db, end.clock) && CategoriesKept(s, end.db)
  {
    hide Inv, SoundEngine, SlotsUnique, SeriesOk, CategoriesKept, FromPass, Legal, Apply;
    if steps != [] {
      var n := |steps| - 1;
      PrefixIsLegal(e, st, steps, n);
      RunKeepsSeries(e, s, st, steps[..n]);
      RunKeepsInv(e, st, steps[..n]);
      NextKeepsSlots(e, Run(e, st, steps[..n]), steps[n]);
      NextKeepsSeries(e, s, Run(e, st, steps[..n]), steps[n]);
      NextKeepsCategories(e, s, Run(e, st, steps[..n]), steps[n]);
    }
  }

  // ---- What a bracket is ----------------------------------------------------------------------------------

  /** Every market closes after 1970, where the clock starts. */
  ghost predicate ClosesAhead(db: Db) {
    forall i :: i in db.markets ==> 0 < db.markets[i].row.terms.closeMs
  }

  lemma CreatedAhead(e: Engine, db: Db, op: Op, now: int)
    requires op.CreateOp? && Apply(e, db, op, now).Ok?
    ensures now < op.terms.closeMs
  {
    hide TextValid, ModeValid, ValidRule, SlotTaken, CategoryFits, Post;
  }

  lemma NextClosesAhead(e: Engine, st: State, step: Step)
    requires SoundEngine(e) && Inv(e, st.db, st.clock) && ClosesAhead(st.db) && 0 <= step.now
    ensures ClosesAhead(Next(e, st, step).db)
  {
    hide Inv, SoundEngine, Apply;
    if Apply(e, st.db, step.op, step.now).Ok? {
      ApplyKeepsTerms(e, st.db, st.clock, step.op, step.now);
      if step.op.CreateOp? {
        CreatedAhead(e, st.db, step.op, step.now);
      }
    }
  }

  lemma {:induction false} RunClosesAhead(e: Engine, steps: seq<Step>)
    requires SoundEngine(e) && LegalRun(e, Genesis(), steps)
    ensures ClosesAhead(Run(e, Genesis(), steps).db) && 0 <= Run(e, Genesis(), steps).clock
  {
    hide Inv, SoundEngine, ClosesAhead, Apply, Legal, Audited, LegalRun;
    if steps == [] {
      assert ClosesAhead(Genesis().db) by { NothingCloses(); }
    } else {
      var n := |steps| - 1;
      PrefixIsLegal(e, Genesis(), steps, n);
      RunClosesAhead(e, steps[..n]);
      GenesisIsSound(e);
      RunKeepsInv(e, Genesis(), steps[..n]);
      NextClosesAhead(e, Run(e, Genesis(), steps[..n]), steps[n]);
    }
  }

  lemma NothingCloses()
    ensures ClosesAhead(Genesis().db)
  {}

  /** The market of one scheduled grid point: it closes there, is observed for one interval from there
      on, may be final a second later, and has its deadline a minute after its window. */
  ghost predicate BracketOf(s: Series, t: Terms, k: int) {
    && t.closeMs == s.anchor + k * s.interval && Scheduled(s, t.closeMs)
    && t.observationStart == t.closeMs && t.observationEnd == t.closeMs + s.interval
    && t.finalizeAfter == t.observationEnd + 1_000 && t.deadline == t.observationEnd + 60_000
    && t.rule == s.rule && t.criterion == s.criterion && t.source == s.source && t.simulated == s.simulated
    && t.authority == s.authority && t.creator == s.creator && t.feeCharged == s.feeCharged
    && t.liquidity == s.liquidity && t.recurring
  }

  /** Every instance of the series is the market of one scheduled grid point of its horizon. */
  ghost predicate AllScheduled(s: Series, db: Db, clock: int) {
    forall i :: i in db.markets && db.markets[i].row.terms.template == s.template ==>
      var t := db.markets[i].row.terms;
      t.closeMs <= clock + s.concurrency * s.interval && exists k :: BracketOf(s, t, k)
  }

  /** The calendar form of what a series keeps, in every reachable state. */
  lemma BracketsAreScheduled(e: Engine, s: Series, demo: bool, st: State)
    requires SoundEngine(e) && ValidSeries(e, s, demo) && Reachable(e, st) && SeriesOk(s, st.db, st.clock)
    ensures AllScheduled(s, st.db, st.clock)
  {
    hide SoundEngine, ValidSeries, LegalRun, Run, IsBracket, BracketOf;
    var steps :| LegalRun(e, Genesis(), steps) && Run(e, Genesis(), steps) == st;
    RunClosesAhead(e, steps);
    forall i | i in st.db.markets && st.db.markets[i].row.terms.template == s.template
      ensures exists k :: BracketOf(s, st.db.markets[i].row.terms, k)
    {
      var k :| IsBracket(s, st.db.markets[i].row.terms, k);
      BracketIsScheduled(e, s, demo, st.db.markets[i].row.terms, k);
    }
  }

  lemma BracketIsScheduled(e: Engine, s: Series, demo: bool, t: Terms, k: int)
    requires ValidSeries(e, s, demo) && IsBracket(s, t, k) && 0 < t.closeMs
    ensures BracketOf(s, t, k)
  {
    hide Eligible, Scheduled, BracketName, ValidSeries;
    EligibleIsScheduled(e, s, demo, t.closeMs);
  }

  // ---- Concurrency ------------------------------------------------------------------------------------------

  /** The brackets of the series that have not closed by the clock. */
  ghost function Unclosed(s: Series, db: Db, clock: int): set<MarketId> {
    set i | i in db.markets && db.markets[i].row.terms.template == s.template && clock < db.markets[i].row.terms.closeMs
  }

  ghost function Closes(db: Db, ids: set<MarketId>): set<int>
    requires ids <= db.markets.Keys
  {
    set i | i in ids :: db.markets[i].row.terms.closeMs
  }

  lemma {:induction false} ClosesCount(s: Series, db: Db, ids: set<MarketId>)
    requires SlotsUnique(db) && ids <= db.markets.Keys
    requires forall i :: i in ids ==> db.markets[i].row.terms.template == s.template
    ensures |Closes(db, ids)| == |ids|
    decreases |ids|
  {
    if ids == {} {
      assert Closes(db, ids) == {};
    } else {
      var i :| i in ids;
      var rest := ids - {i};
      ClosesCount(s, db, rest);
      assert Closes(db, ids) == Closes(db, rest) + {db.markets[i].row.terms.closeMs};
      assert db.markets[i].row.terms.closeMs !in Closes(db, rest);
    }
  }

  function Grid(s: Series, first: int, n: nat): (slots: set<int>)
    ensures |slots| <= n
    ensures forall k :: first <= k < first + n ==> Slot(s, k) in slots
    decreases n
  {
    if n == 0 then {} else Grid(s, first, n - 1) + {Slot(s, first + n - 1)}
  }

  lemma SubsetNoLarger(a: set<int>, b: set<int>)
    requires a <= b
    ensures |a| <= |b|
  {
    assert b == a + (b - a);
  }

  /** At every point of every run, at most `concurrency` brackets of the series are unclosed by the
      clock, and their observation windows are disjoint. */
  lemma AtMostConcurrencyUnclosed(e: Engine, s: Series, demo: bool, db: Db, clock: int)
    requires ValidSeries(e, s, demo) && SlotsUnique(db) && SeriesOk(s, db, clock)
    ensures |Unclosed(s, db, clock)| <= s.concurrency
    ensures forall i, j :: i in Unclosed(s, db, clock) && j in Unclosed(s, db, clock) && i != j ==>
      var a, b := db.markets[i].row.terms, db.markets[j].row.terms;
      a.observationEnd <= b.observationStart || b.observationEnd <= a.observationStart
  {
    hide IsBracket, ValidSeries;
    var ids := Unclosed(s, db, clock);
    ValidInterval(e, s, demo);
    var first := FirstIndex(s, clock);
    ClosesCount(s, db, ids);
    forall c | c in Closes(db, ids) ensures c in Grid(s, first, s.concurrency) {
      var i :| i in ids && db.markets[i].row.terms.closeMs == c;
      var k :| IsBracket(s, db.markets[i].row.terms, k);
      BracketCloses(s, db.markets[i].row.terms, k);
      PassCoversHorizon(s, clock, k);
    }
    SubsetNoLarger(Closes(db, ids), Grid(s, first, s.concurrency));
    forall i, j | i in ids && j in ids && i != j
      ensures var a, b := db.markets[i].row.terms, db.markets[j].row.terms;
              a.observationEnd <= b.observationStart || b.observationEnd <= a.observationStart
    {
      BracketsDisjoint(s, db.markets[i].row.terms, db.markets[j].row.terms);
    }
  }

  lemma ValidInterval(e: Engine, s: Series, demo: bool)
    requires ValidSeries(e, s, demo)
    ensures s.interval > 0 && s.concurrency > 0
  {}

  lemma BracketsDisjoint(s: Series, a: Terms, b: Terms)
    requires s.interval > 0 && a.closeMs != b.closeMs
    requires (exists k :: IsBracket(s, a, k)) && (exists k :: IsBracket(s, b, k))
    ensures a.observationEnd <= b.observationStart || b.observationEnd <= a.observationStart
  {
    var j :| IsBracket(s, a, j);
    var k :| IsBracket(s, b, k);
    if j < k {
      WindowsDisjoint(s, j, k);
    } else if k < j {
      WindowsDisjoint(s, k, j);
    }
  }
}
