/** Evidence submissions: the record that decides a market, and its final result, depend on what was
    submitted and not on the order or the number of times it arrived. */
module Submissions {
  import opened Wrappers
  import opened Books
  import opened Rules
  import opened Exchange

  datatype Arrival = Arrival(input: EvidenceInput, now: int)

  /** The checks on a submission that look at the published terms and the clock only. */
  predicate Eligible(row: Instance, a: Arrival, demo: bool) {
    var t := row.terms;
    && t.authority == Simulator
    && t.observationEnd <= a.now
    && ((demo && t.simulated && a.input.source == SIMULATOR_SOURCE) || a.now < t.deadline)
    && a.input.source == t.source
    && a.input.windowStart == t.observationStart && a.input.windowEnd == t.observationEnd
    && Evaluate(t.rule, a.input.observation, t.observationStart, t.observationEnd).Ok?
  }

  function Key(input: EvidenceInput): EventKey {
    EventKey(input.source, input.event)
  }

  /** The row an eligible submission becomes. */
  function Record(terms: Terms, input: EvidenceInput): Evidence {
    var seen := Evaluate(terms.rule, input.observation, terms.observationStart, terms.observationEnd);
    Evidence(Key(input), input.revision, terms.observationEnd, Observed(input), if seen.Ok? then seen.value else None)
  }

  /** The market after the arrivals; a refused one changes nothing. */
  function Receive(mk: Market, arrivals: seq<Arrival>, demo: bool): Market {
    if arrivals == [] then mk
    else
      var before, a := Receive(mk, arrivals[..|arrivals| - 1], demo), arrivals[|arrivals| - 1];
      match ObserveMarket(before, a.input, demo, a.now)
      case Ok(next) => next
      case Err(_) => before
  }

  function Inputs(arrivals: seq<Arrival>): set<EvidenceInput> {
    set a | a in arrivals :: a.input
  }

  /** Distinct submissions carry distinct events and distinct revisions. */
  ghost predicate WellNumbered(inputs: set<EvidenceInput>) {
    forall x, y :: x in inputs && y in inputs && x != y ==> Key(x) != Key(y) && x.revision != y.revision
  }

  /** The evidence rows are exactly the records of `inputs`. */
  ghost predicate Holds(mk: Market, inputs: set<EvidenceInput>) {
    && (forall k :: 0 <= k < |mk.evidence| ==> exists x :: x in inputs && mk.evidence[k] == Record(mk.row.terms, x))
    && (forall x :: x in inputs ==> Record(mk.row.terms, x) in mk.evidence)
  }

  /** A market awaiting its first evidence. */
  predicate Awaiting(mk: Market) {
    (mk.row.phase == Open || mk.row.phase == Closed) && mk.evidence == [] && mk.row.evidenceId.None?
  }

  // ---- The selected record --------------------------------------------------------------------------

  lemma {:induction false} LatestIsHighest(evidence: seq<Evidence>)
    ensures Latest(evidence).None? <==> evidence == []
    ensures Latest(evidence).Some? ==>
      && Latest(evidence).value in evidence
      && forall x :: x in evidence ==> x.revision <= Latest(evidence).value.revision
  {
    if evidence != [] {
      var n := |evidence| - 1;
      LatestIsHighest(evidence[..n]);
      assert evidence == evidence[..n] + [evidence[n]];
    }
  }

  /** With distinct revisions, the highest record is a function of the set of submissions. */
  lemma LatestIsDetermined(mk: Market, other: Market, inputs: set<EvidenceInput>)
    requires mk.row.terms == other.row.terms && WellNumbered(inputs)
    requires Holds(mk, inputs) && Holds(other, inputs)
    ensures Latest(mk.evidence) == Latest(other.evidence)
  {
    hide Record;
    LatestIsHighest(mk.evidence);
    LatestIsHighest(other.evidence);
    RecordKeeps(mk.row.terms);
    if inputs != {} {
      var z :| z in inputs;
      assert Record(mk.row.terms, z) in mk.evidence && Record(mk.row.terms, z) in other.evidence;
      var a, b := Latest(mk.evidence).value, Latest(other.evidence).value;
      var x :| x in inputs && a == Record(mk.row.terms, x);
      var y :| y in inputs && b == Record(mk.row.terms, y);
      assert Record(mk.row.terms, x) in other.evidence && Record(mk.row.terms, y) in mk.evidence;
    }
  }

  lemma RecordKeeps(terms: Terms)
    ensures forall x :: Record(terms, x).revision == x.revision && Record(terms, x).key == Key(x)
    ensures forall x :: Record(terms, x).content == Observed(x)
  {}

  // ---- Arrivals ---------------------------------------------------------------------------------------

  /** One eligible arrival: recorded when new, and without effect when it is a duplicate. */
  lemma ArrivalIsRecorded(mk: Market, inputs: set<EvidenceInput>, a: Arrival, demo: bool)
    requires mk.row.phase == Open || mk.row.phase == Closed
    requires Holds(mk, inputs) && WellNumbered(inputs + {a.input}) && Eligible(mk.row, a, demo)
    ensures ObserveMarket(mk, a.input, demo, a.now).Ok?
    ensures var next := ObserveMarket(mk, a.input, demo, a.now).value;
            && (if a.input in inputs then next == mk
                else next == WithEvidence(mk, Record(mk.row.terms, a.input), next.row.evidenceId)
                     && next.row.evidenceId == SelectedKey(next.evidence))
  {
    hide Record, Evaluate;
    RecordKeeps(mk.row.terms);
    RecordedContent(mk.row.terms, a.input);
    var found := FindEvent(mk.evidence, Key(a.input));
    if found.Some? {
      var x :| x in inputs && found.value == Record(mk.row.terms, x);
      assert x == a.input;
    } else {
      assert a.input !in inputs;
      forall k | 0 <= k < |mk.evidence| ensures mk.evidence[k].revision != a.input.revision {
        var x :| x in inputs && mk.evidence[k] == Record(mk.row.terms, x);
      }
    }
  }

  lemma RecordedContent(terms: Terms, input: EvidenceInput)
    requires Evaluate(terms.rule, input.observation, terms.observationStart, terms.observationEnd).Ok?
    ensures Record(terms, input) == Evidence(
      Key(input), input.revision, terms.observationEnd, Observed(input),
      Evaluate(terms.rule, input.observation, terms.observationStart, terms.observationEnd).value)
  {}

  function SelectedKey(evidence: seq<Evidence>): Option<EventKey> {
    var top := Latest(evidence);
    if top.Some? then Some(top.value.key) else None
  }

  /** The market holds exactly the records of `inputs` and points at the highest one; its version
      counts them. */
  ghost predicate Received(mk: Market, end: Market, inputs: set<EvidenceInput>) {
    && Holds(end, inputs)
    && end.row == mk.row.(version := end.row.version, evidenceId := end.row.evidenceId)
    && end.row.evidenceId == SelectedKey(end.evidence)
    && end.row.version == mk.row.version + |inputs|
  }

  lemma ReceivedMore(mk: Market, before: Market, inputs: set<EvidenceInput>, a: Arrival, demo: bool)
    requires Awaiting(mk) && Received(mk, before, inputs)
    requires WellNumbered(inputs + {a.input}) && Eligible(mk.row, a, demo)
    ensures ObserveMarket(before, a.input, demo, a.now).Ok?
    ensures Received(mk, ObserveMarket(before, a.input, demo, a.now).value, inputs + {a.input})
  {
    hide Record, Evaluate, ObserveMarket, Holds, SelectedKey, WellNumbered;
    ArrivalIsRecorded(before, inputs, a, demo);
    var next := ObserveMarket(before, a.input, demo, a.now).value;
    HoldsMore(before, next, inputs, a.input);
    if a.input in inputs {
      assert inputs + {a.input} == inputs;
    }
  }

  /** After any eligible arrivals, the market holds exactly the records of what arrived. */
  lemma {:induction false} ReceivedIsHeld(mk: Market, arrivals: seq<Arrival>, demo: bool)
    requires Awaiting(mk) && WellNumbered(Inputs(arrivals))
    requires forall k :: 0 <= k < |arrivals| ==> Eligible(mk.row, arrivals[k], demo)
    ensures Received(mk, Receive(mk, arrivals, demo), Inputs(arrivals))
  {
    hide Received, Eligible, ObserveMarket;
    if arrivals == [] {
      NothingReceived(mk);
      assert Inputs(arrivals) == {};
    } else {
      var n := |arrivals| - 1;
      var rest, a := arrivals[..n], arrivals[n];
      assert arrivals == rest + [a];
      assert Inputs(arrivals) == Inputs(rest) + {a.input};
      ReceivedIsHeld(mk, rest, demo);
      ReceivedMore(mk, Receive(mk, rest, demo), Inputs(rest), a, demo);
    }
  }

  lemma NothingReceived(mk: Market)
    requires Awaiting(mk)
    ensures Received(mk, mk, {})
  {}

  lemma HoldsMore(mk: Market, next: Market, inputs: set<EvidenceInput>, input: EvidenceInput)
    requires Holds(mk, inputs) && next.row.terms == mk.row.terms
    requires if input in inputs then next.evidence == mk.evidence
             else next.evidence == mk.evidence + [Record(mk.row.terms, input)]
    ensures Holds(next, inputs + {input})
  {
    hide Record;
    forall k | 0 <= k < |next.evidence|
      ensures exists x :: x in inputs + {input} && next.evidence[k] == Record(next.row.terms, x)
    {
      if k < |mk.evidence| {
        var x :| x in inputs && mk.evidence[k] == Record(mk.row.terms, x);
        assert x in inputs + {input};
      }
    }
  }

  /** The same submissions, in any two orders and with any duplicates, select the same record, give
      the same final result at every time, and leave the same row. */
  lemma EvidenceIsOrderIndependent(mk: Market, one: seq<Arrival>, two: seq<Arrival>, demo: bool, now: int)
    requires Awaiting(mk) && Inputs(one) == Inputs(two) && WellNumbered(Inputs(one))
    requires forall k :: 0 <= k < |one| ==> Eligible(mk.row, one[k], demo)
    requires forall k :: 0 <= k < |two| ==> Eligible(mk.row, two[k], demo)
    ensures var a, b := Receive(mk, one, demo), Receive(mk, two, demo);
            && Latest(a.evidence) == Latest(b.evidence)
            && a.row == b.row
            && FinalResult(a, now) == FinalResult(b, now)
  {
    hide Eligible, Receive, Holds;
    ReceivedIsHeld(mk, one, demo);
    ReceivedIsHeld(mk, two, demo);
    LatestIsDetermined(Receive(mk, one, demo), Receive(mk, two, demo), Inputs(one));
  }

  /** The selected record is the one with the highest revision of all that arrived, and decides. */
  lemma HighestRevisionDecides(mk: Market, arrivals: seq<Arrival>, demo: bool, top: EvidenceInput, now: int)
    requires Awaiting(mk) && WellNumbered(Inputs(arrivals)) && top in Inputs(arrivals)
    requires forall k :: 0 <= k < |arrivals| ==> Eligible(mk.row, arrivals[k], demo)
    requires forall x :: x in Inputs(arrivals) ==> x.revision <= top.revision
    ensures var end := Receive(mk, arrivals, demo);
            var t := mk.row.terms;
            && Latest(end.evidence) == Some(Record(t, top))
            && (t.finalizeAfter <= now && Record(t, top).result.Some? ==> FinalResult(end, now) == Record(t, top).result)
            && (Record(t, top).result.None? ==> FinalResult(end, now) == if t.finalizeAfter <= now && t.deadline <= now then Some(Void) else None)
  {
    hide Eligible, Receive, Record;
    ReceivedIsHeld(mk, arrivals, demo);
    var end := Receive(mk, arrivals, demo);
    LatestIsHighest(end.evidence);
    RecordKeeps(mk.row.terms);
    assert Record(mk.row.terms, top) in end.evidence;
    var x :| x in Inputs(arrivals) && Latest(end.evidence).value == Record(mk.row.terms, x);
  }

  /** Without distinct revisions the order does matter: the first to arrive is kept. */
  lemma SharedRevisionIsFirstComeFirstServed(mk: Market, x: Arrival, y: Arrival, demo: bool)
    requires Awaiting(mk) && Eligible(mk.row, x, demo) && Eligible(mk.row, y, demo)
    requires Key(x.input) != Key(y.input) && x.input.revision == y.input.revision
    ensures Receive(mk, [x, y], demo).evidence == [Record(mk.row.terms, x.input)]
    ensures Receive(mk, [y, x], demo).evidence == [Record(mk.row.terms, y.input)]
  {
    FirstIsKept(mk, x, y, demo);
    FirstIsKept(mk, y, x, demo);
  }

  lemma FirstIsKept(mk: Market, x: Arrival, y: Arrival, demo: bool)
    requires Awaiting(mk) && Eligible(mk.row, x, demo) && Eligible(mk.row, y, demo)
    requires Key(x.input) != Key(y.input) && x.input.revision == y.input.revision
    ensures Receive(mk, [x, y], demo).evidence == [Record(mk.row.terms, x.input)]
  {
    hide Evaluate, Record, Latest, ObserveMarket;
    NothingReceived(mk);
    ReceivedMore(mk, mk, {}, x, demo);
    ArrivalIsRecorded(mk, {}, x, demo);
    RecordKeeps(mk.row.terms);
    var first := ObserveMarket(mk, x.input, demo, x.now).value;
    assert [x, y][..1] == [x] && [x][..0] == [];
    assert Receive(mk, [], demo) == mk && Receive(mk, [x], demo) == first;
    RevisionIsTaken(first, y, demo);
  }

  lemma RevisionIsTaken(mk: Market, y: Arrival, demo: bool)
    requires |mk.evidence| == 1 && mk.evidence[0].key != Key(y.input) && mk.evidence[0].revision == y.input.revision
    ensures ObserveMarket(mk, y.input, demo, y.now).Err?
  {
    hide Evaluate, Latest;
    assert HasRevision(mk.evidence, y.input.revision);
  }

  /** Nothing submitted once the result is set changes the market, by any of the three paths. */
  lemma NothingChangesAfterFinalization(
    mk: Market, input: EvidenceInput, demo: bool, submitter: UserId, outcome: nat, event: string, signed: bool, replay: bool,
    now: int
  )
    requires mk.row.phase == Resolving || Terminal(mk.row)
    ensures ObserveMarket(mk, input, demo, now).Ok? ==> ObserveMarket(mk, input, demo, now).value == mk
    ensures CreatorResolves(mk, submitter, outcome, event, signed, now).Err?
    ensures ResolverAnswers(mk, outcome, event, replay, now).Err?
  {}
}
