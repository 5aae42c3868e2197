/**
  The request estimate of a scan plan: per-phase bounds, their totals, the pace
  ceiling and the clamp to a request budget.
*/
module PlanEstimate {
  import opened Common

  datatype Range = Range(low: int, high: int)

  // A phase with its estimate, if there is anything to estimate, and the most
  // requests its pace allows, if that is bounded.
  datatype Phase = Phase(id: string, enabled: bool, sends: bool, range: Option<Range>, ceiling: Option<int>)

  datatype Budgets = Budgets(rate: int, scanMs: int, maxRequests: int)

  datatype Estimate = Estimate(byPhase: map<string, Range>, low: int, high: int, ceiling: Option<int>,
      clampedTo: Option<int>, hits: seq<string>)

  function Min(a: int, b: int): int {
    if a < b then a else b
  }

  function Max(a: int, b: int): int {
    if a > b then a else b
  }

  // ------------------------------------------------- totals

  // An enabled phase that has an estimate.
  datatype Row = Row(id: string, low: int, high: int, sends: bool, ceiling: Option<int>)

  predicate Counts(ph: Phase) {
    ph.enabled && ph.range.Some?
  }

  function RowOf(ph: Phase): Row
    requires Counts(ph)
  {
    Row(ph.id, ph.range.value.low, ph.range.value.high, ph.sends, ph.ceiling)
  }

  function Rows(phases: seq<Phase>): seq<Row> {
    if phases == [] then []
    else Rows(phases[..|phases| - 1]) + if Counts(phases[|phases| - 1]) then [RowOf(phases[|phases| - 1])] else []
  }

  function Lows(c: seq<Row>): int {
    if c == [] then 0 else Lows(c[..|c| - 1]) + c[|c| - 1].low
  }

  function Highs(c: seq<Row>): int {
    if c == [] then 0 else Highs(c[..|c| - 1]) + c[|c| - 1].high
  }

  function Ids(c: seq<Row>): seq<string> {
    Map(c, (row: Row) => row.id)
  }

  function ByPhase(c: seq<Row>): map<string, Range> {
    if c == [] then map[] else ByPhase(c[..|c| - 1])[c[|c| - 1].id := Range(c[|c| - 1].low, c[|c| - 1].high)]
  }

  function CeilingSum(c: seq<Row>): int {
    if c == [] then 0
    else CeilingSum(c[..|c| - 1]) + if c[|c| - 1].ceiling.Some? then c[|c| - 1].ceiling.value else 0
  }

  predicate Bounded(row: Row) {
    row.ceiling.Some? || !(row.sends && row.high > 0)
  }

  // No phase that sends is without a ceiling.
  predicate AllBounded(c: seq<Row>) {
    c == [] || (AllBounded(c[..|c| - 1]) && Bounded(c[|c| - 1]))
  }

  function Headline(b: Budgets, c: seq<Row>): Option<int> {
    if b.rate > 0 && b.scanMs > 0 then Some(b.rate * b.scanMs / 1000)
    else if AllBounded(c) && CeilingSum(c) > 0 then Some(CeilingSum(c))
    else None
  }

  // The phases whose running total passes the limit.
  function Over(c: seq<Row>, limit: int): seq<string> {
    if c == [] then [] else Over(c[..|c| - 1], limit) + if Highs(c) > limit then [c[|c| - 1].id] else []
  }

  // What the loop over the phases has summed up.
  predicate Summed(c: seq<Row>, byPhase: map<string, Range>, low: int, high: int, ordered: seq<string>, ceilings: int,
      known: bool)
  {
    && byPhase == ByPhase(c) && low == Lows(c) && high == Highs(c) && ordered == Ids(c)
    && ceilings == CeilingSum(c) && known == AllBounded(c)
  }

  lemma SummedOneMore(c: seq<Row>, row: Row, byPhase: map<string, Range>, low: int, high: int, ordered: seq<string>,
      ceilings: int, known: bool)
    requires Summed(c, byPhase, low, high, ordered, ceilings, known)
    ensures Summed(c + [row], byPhase[row.id := Range(row.low, row.high)], low + row.low, high + row.high,
      ordered + [row.id],
                   ceilings + (if row.ceiling.Some? then row.ceiling.value else 0), known && Bounded(row))
  {
    assert (c + [row])[..|c|] == c;
  }

  lemma {:induction false} ByPhaseAt(c: seq<Row>, i: nat)
    requires Distinct(Ids(c)) && i < |c|
    ensures c[i].id in ByPhase(c) && ByPhase(c)[c[i].id] == Range(c[i].low, c[i].high)
  {
    var init := c[..|c| - 1];
    if i < |init| {
      assert forall a :: 0 <= a < |init| ==> Ids(init)[a] == Ids(c)[a];
      ByPhaseAt(init, i);
      assert Ids(c)[i] != Ids(c)[|c| - 1];
    }
  }

  // Walks the running total against the limit.
  method Clamp(ghost c: seq<Row>, ordered: seq<string>, byPhase: map<string, Range>, limit: int)
    returns (hits: seq<string>)
    requires Distinct(Ids(c)) && ordered == Ids(c) && byPhase == ByPhase(c)
    ensures hits == Over(c, limit)
  {
    hits := [];
    var total := 0;
    for i := 0 to |ordered|
      invariant total == Highs(c[..i]) && hits == Over(c[..i], limit)
    {
      assert c[..i + 1][..i] == c[..i];
      ByPhaseAt(c, i);
      total := total + byPhase[ordered[i]].high;
      if total > limit {
        hits := hits + [ordered[i]];
      }
    }
    assert c[..|c|] == c;
  }

  method EstimatePlan(phases: seq<Phase>, b: Budgets) returns (e: Estimate)
    requires Distinct(Ids(Rows(phases)))
    ensures e.byPhase == ByPhase(Rows(phases)) && e.ceiling == Headline(b, Rows(phases))
    ensures b.maxRequests <= 0 ==> e.low == Lows(Rows(phases)) && e.high == Highs(Rows(phases))
    ensures b.maxRequests > 0 ==>
      e.low == Min(Lows(Rows(phases)), b.maxRequests) && e.high == Min(Highs(Rows(phases)), b.maxRequests)
    ensures e.clampedTo == if 0 < b.maxRequests < Highs(Rows(phases)) then Some(b.maxRequests) else None
    ensures e.hits == if e.clampedTo.Some? then Over(Rows(phases), b.maxRequests) else []
  {
    var low, high, ceilings, known := 0, 0, 0, true;
    var byPhase: map<string, Range> := map[];
    var ordered: seq<string> := [];
    for i := 0 to |phases|
      invariant Summed(Rows(phases[..i]), byPhase, low, high, ordered, ceilings, known)
    {
      assert phases[..i + 1][..i] == phases[..i];
      if !Counts(phases[i]) {
        assert Rows(phases[..i]) + [] == Rows(phases[..i]);
        continue;
      }
      var row := RowOf(phases[i]);
      SummedOneMore(Rows(phases[..i]), row, byPhase, low, high, ordered, ceilings, known);
      if row.ceiling.Some? {
        ceilings := ceilings + row.ceiling.value;
      } else if row.sends && row.high > 0 {
        known := false;
      }
      byPhase, ordered := byPhase[row.id := Range(row.low, row.high)], ordered + [row.id];
      low, high := low + row.low, high + row.high;
    }
    assert phases[..|phases|] == phases;
    var ceiling := if b.rate > 0 && b.scanMs > 0 then Some(b.rate * b.scanMs / 1000)
      else if known && ceilings > 0 then Some(ceilings) else None;
    e := Estimate(byPhase, low, high, ceiling, None, []);
    if b.maxRequests > 0 {
      if high > b.maxRequests {
        var hits := Clamp(Rows(phases), ordered, byPhase, b.maxRequests);
        e := e.(clampedTo := Some(b.maxRequests), hits := hits, high := b.maxRequests);
      }
      e := e.(low := Min(low, b.maxRequests));
    }
  }

  // ------------------------------------------------- the totals, phase by phase

  // The sum of one amount over the phases, each looked at on its own.
  function SumOf(phases: seq<Phase>, amount: Phase -> int): int {
    if phases == [] then 0 else amount(phases[0]) + SumOf(phases[1..], amount)
  }

  function LowPart(): Phase -> int {
    (ph: Phase) => if ph.enabled && ph.range.Some? then ph.range.value.low else 0
  }

  function HighPart(): Phase -> int {
    (ph: Phase) => if ph.enabled && ph.range.Some? then ph.range.value.high else 0
  }

  function CeilingPart(): Phase -> int {
    (ph: Phase) => if ph.enabled && ph.range.Some? && ph.ceiling.Some? then ph.ceiling.value else 0
  }

  // An enabled phase that may send any number of requests.
  predicate Boundless(ph: Phase) {
    ph.enabled && ph.range.Some? && ph.sends && ph.range.value.high > 0 && ph.ceiling.None?
  }

  lemma {:induction false} SumSnoc(phases: seq<Phase>, ph: Phase, amount: Phase -> int)
    ensures SumOf(phases + [ph], amount) == SumOf(phases, amount) + amount(ph)
    decreases |phases|
  {
    if phases == [] {
      assert [ph][1..] == [];
    } else {
      assert (phases + [ph])[1..] == phases[1..] + [ph];
      SumSnoc(phases[1..], ph, amount);
    }
  }

  lemma OneMoreRow(c: seq<Row>, row: Row)
    ensures Lows(c + [row]) == Lows(c) + row.low && Highs(c + [row]) == Highs(c) + row.high
    ensures CeilingSum(c + [row]) == CeilingSum(c) + if row.ceiling.Some? then row.ceiling.value else 0
    ensures AllBounded(c + [row]) <==> AllBounded(c) && Bounded(row)
    ensures ByPhase(c + [row]) == ByPhase(c)[row.id := Range(row.low, row.high)] && Ids(c + [row]) == Ids(c) + [row.id]
  {
    assert (c + [row])[..|c|] == c;
  }

  // The rows gain one, or stay.
  lemma OneMorePhase(init: seq<Phase>, last: Phase)
    ensures Counts(last) ==> Rows(init + [last]) == Rows(init) + [RowOf(last)]
    ensures !Counts(last) ==> Rows(init + [last]) == Rows(init)
  {
    assert (init + [last])[..|init|] == init;
    assert Rows(init) + [] == Rows(init);
  }

  ghost predicate AddedUp(phases: seq<Phase>) {
    && Lows(Rows(phases)) == SumOf(phases, LowPart()) && Highs(Rows(phases)) == SumOf(phases, HighPart())
    && CeilingSum(Rows(phases)) == SumOf(phases, CeilingPart())
  }

  lemma {:induction false} RowsAddUp(phases: seq<Phase>)
    ensures AddedUp(phases)
  {
    if phases != [] {
      var init, last := phases[..|phases| - 1], phases[|phases| - 1];
      assert phases == init + [last];
      RowsAddUp(init);
      SumSnoc(init, last, LowPart());
      SumSnoc(init, last, HighPart());
      SumSnoc(init, last, CeilingPart());
      OneMorePhase(init, last);
      if Counts(last) { OneMoreRow(Rows(init), RowOf(last)); }
    }
  }

  lemma {:induction false} RowsAreBounded(phases: seq<Phase>)
    ensures AllBounded(Rows(phases)) <==> forall ph :: ph in phases ==> !Boundless(ph)
  {
    if phases != [] {
      var init, last := phases[..|phases| - 1], phases[|phases| - 1];
      assert phases == init + [last];
      RowsAreBounded(init);
      OneMorePhase(init, last);
      assert forall ph :: ph in phases <==> ph in init || ph == last;
      if Counts(last) {
        OneMoreRow(Rows(init), RowOf(last));
        assert Bounded(RowOf(last)) <==> !Boundless(last);
      } else {
        assert !Boundless(last);
      }
      assert AllBounded(Rows(phases)) <==> AllBounded(Rows(init)) && !Boundless(last);
    }
  }

  lemma {:induction false} PartIsWithin(phases: seq<Phase>, amount: Phase -> int, ph: Phase)
    requires (forall p :: p in phases ==> amount(p) >= 0) && ph in phases
    ensures amount(ph) <= SumOf(phases, amount)
    decreases |phases|
  {
    if phases[0] != ph {
      PartIsWithin(phases[1..], amount, ph);
    } else if |phases| > 1 {
      PartIsWithin(phases[1..], amount, phases[1]);
    }
  }

  // The one hard number: the rate over the whole scan when both are set;
  // otherwise it is there exactly when every phase that sends is bounded and they
  // may send something, and it is what they may send together, at least what any
  // one of them may.
  lemma CeilingIsOverThePhases(phases: seq<Phase>, b: Budgets)
    ensures b.rate > 0 && b.scanMs > 0 ==> Headline(b, Rows(phases)) == Some(b.rate * b.scanMs / 1000)
    ensures b.rate <= 0 || b.scanMs <= 0 ==>
      var sum, ceiling := SumOf(phases, CeilingPart()), Headline(b, Rows(phases));
      && (ceiling.Some? <==> sum > 0 && forall ph :: ph in phases ==> !Boundless(ph))
      && (ceiling.Some? ==> ceiling.value == sum)
      && (ceiling.Some? && (forall ph :: ph in phases ==> CeilingPart()(ph) >= 0) ==>
            forall ph :: ph in phases ==> CeilingPart()(ph) <= sum)
  {
    RowsAddUp(phases);
    RowsAreBounded(phases);
    if forall ph :: ph in phases ==> CeilingPart()(ph) >= 0 {
      forall ph | ph in phases ensures CeilingPart()(ph) <= SumOf(phases, CeilingPart()) {
        PartIsWithin(phases, CeilingPart(), ph);
      }
    }
  }

  lemma {:induction false} ListedIds(c: seq<Row>, id: string)
    ensures id in ByPhase(c) <==> id in Ids(c)
  {
    if c != [] {
      var init, row := c[..|c| - 1], c[|c| - 1];
      assert c == init + [row];
      ListedIds(init, id);
      OneMoreRow(init, row);
    }
  }

  // The phase has an estimate, and this one.
  ghost predicate HasEstimate(phases: seq<Phase>, id: string, range: Range) {
    exists ph :: ph in phases && ph.enabled && ph.id == id && ph.range == Some(range)
  }

  lemma HasOneMore(init: seq<Phase>, last: Phase, id: string, range: Range)
    ensures HasEstimate(init + [last], id, range) <==>
      HasEstimate(init, id, range) || (last.enabled && last.id == id && last.range == Some(range))
  {
    assert forall ph :: ph in init + [last] <==> ph in init || ph == last;
  }

  lemma DistinctInit(ids: seq<string>, id: string)
    requires Distinct(ids + [id])
    ensures Distinct(ids) && id !in ids
  {
    var all := ids + [id];
    assert forall i :: 0 <= i < |ids| ==> all[i] == ids[i];
    assert all[|ids|] == id;
  }

  // The estimate lists exactly the enabled phases that have one, each under its
  // own bounds.
  lemma {:induction false} EveryEstimateIsListed(phases: seq<Phase>, id: string, range: Range)
    requires Distinct(Ids(Rows(phases)))
    ensures var m := ByPhase(Rows(phases)); (id in m && m[id] == range) <==> HasEstimate(phases, id, range)
  {
    if phases != [] {
      var init, last := phases[..|phases| - 1], phases[|phases| - 1];
      assert phases == init + [last];
      OneMorePhase(init, last);
      HasOneMore(init, last, id, range);
      if Counts(last) {
        var before := ByPhase(Rows(init));
        OneMoreRow(Rows(init), RowOf(last));
        DistinctInit(Ids(Rows(init)), last.id);
        ListedIds(Rows(init), last.id);
        EveryEstimateIsListed(init, last.id, range);
      }
      EveryEstimateIsListed(init, id, range);
    }
  }

  // The totals and the clamp keep the low bound below the high one.
  lemma {:induction false} LowStaysBelowHigh(c: seq<Row>, limit: int)
    requires forall row :: row in c ==> row.low <= row.high
    ensures Lows(c) <= Highs(c) && Min(Lows(c), limit) <= Min(Highs(c), limit)
  {
    if c != [] { LowStaysBelowHigh(c[..|c| - 1], limit); }
  }

  // Where the running total passes the limit for the first time.
  function FirstOver(c: seq<Row>, limit: int): (n: nat)
    ensures n <= |c| && (n < |c| ==> Highs(c[..n + 1]) > limit)
    ensures forall k :: 0 < k <= n ==> Highs(c[..k]) <= limit
  {
    if c == [] then 0
    else
      var before := FirstOver(c[..|c| - 1], limit);
      assert forall k :: 0 <= k < |c| ==> c[..|c| - 1][..k] == c[..k];
      assert c[..|c|] == c;
      if before < |c| - 1 then before else if Highs(c) > limit then |c| - 1 else |c|
  }

  lemma IdsSnoc(c: seq<Row>, row: Row)
    ensures Ids(c + [row]) == Ids(c) + [row.id]
  {
  }

  lemma {:induction false} OverStays(c: seq<Row>, n: nat, limit: int)
    requires (forall row :: row in c ==> row.high >= 0) && n < |c| - 1 && Highs(c[..|c| - 1][..n + 1]) > limit
    ensures Highs(c) > limit
  {
    var init := c[..|c| - 1];
    assert c[|c| - 1] in c && forall row :: row in init ==> row in c;
    if n + 1 < |init| {
      assert init[..|init| - 1][..n + 1] == init[..n + 1];
      OverStays(init, n, limit);
    } else {
      assert init[..n + 1] == init;
    }
  }

  lemma HitsGoOn(c: seq<Row>, n: nat, limit: int)
    requires (forall row :: row in c ==> row.high >= 0) && n < |c| - 1 && Highs(c[..|c| - 1][..n + 1]) > limit
    requires Over(c[..|c| - 1], limit) == Ids(c[..|c| - 1][n..])
    ensures Over(c, limit) == Ids(c[n..])
  {
    var init, last := c[..|c| - 1], c[|c| - 1];
    OverStays(c, n, limit);
    assert c[n..] == init[n..] + [last];
    IdsSnoc(init[n..], last);
  }

  // The phases expected to run into the budget are the last ones, from the first
  // whose running total passes it; and there is one when the whole passes it.
  lemma {:induction false} HitsAreTheRest(c: seq<Row>, limit: int)
    requires forall row :: row in c ==> row.high >= 0
    ensures Over(c, limit) == Ids(c[FirstOver(c, limit)..])
    ensures c != [] && Highs(c) > limit ==> FirstOver(c, limit) < |c|
  {
    if c != [] {
      var init, last := c[..|c| - 1], c[|c| - 1];
      HitsAreTheRest(init, limit);
      var n := FirstOver(init, limit);
      assert forall row :: row in init ==> row in c;
      if n < |init| {
        HitsGoOn(c, n, limit);
      } else {
        assert init[n..] == [] && c[|init|..] == [last] && c[|c|..] == [];
        assert Over(init, limit) == [] && Ids([last]) == [last.id];
      }
    }
  }

  // ------------------------------------------------- one phase's pace

  datatype Pace = Pace(rate: int, perPhaseMs: int, perTargetMs: int, paced: bool, browser: bool, concurrency: int)

  // The milliseconds a phase may run: its own budget, or its targets' in rounds,
  // and never more than the scan's.
  function Wall(p: Pace, targets: int, scanMs: int): int {
    var conc := Max(p.concurrency, 1);
    var own := if p.perPhaseMs <= 0 && p.perTargetMs > 0 then p.perTargetMs * ((Max(targets, 1) + conc - 1) / conc)
        else p.perPhaseMs;
    if scanMs > 0 && (own <= 0 || own > scanMs) then scanMs else own
  }

  // Rate times whole seconds, when both are bounded.
  function PaceCeiling(p: Pace, targets: int, scanMs: int): Option<int> {
    if p.browser || !p.paced || p.rate <= 0 || Wall(p, targets, scanMs) <= 0 then None
    else Some(p.rate * (Wall(p, targets, scanMs) / 1000))
  }

  lemma Times(k: int, a: int, b: int)
    requires k >= 0 && a <= b
    ensures k * a <= k * b
  {
  }

  lemma WholeSeconds(rate: int, wall: int, scan: int)
    requires rate > 0 && 0 < wall <= scan
    ensures 0 <= rate * (wall / 1000) <= rate * scan / 1000
  {
    var s := wall / 1000;
    assert s * 1000 <= wall;
    Times(rate, s * 1000, scan);
    assert rate * (s * 1000) == (rate * s) * 1000;
    assert (rate * s) * 1000 <= rate * scan;
    Times(rate, 0, s);
  }

  // How many rounds it takes to run the targets so many at a time.
  predicate Rounds(targets: int, conc: int, k: int) {
    (k - 1) * conc < targets <= k * conc
  }

  lemma RoundsFit(targets: int, conc: int)
    requires targets >= 1 && conc >= 1
    ensures Rounds(targets, conc, (targets + conc - 1) / conc)
  {
  }

  // What a phase's own budget comes to: its own, or its targets' in as many rounds
  // as they take; none when it has neither.
  ghost predicate OwnBudget(p: Pace, targets: int, own: int) {
    if p.perPhaseMs > 0 then own == p.perPhaseMs
    else if p.perTargetMs > 0 then
      exists k :: Rounds(Max(targets, 1), Max(p.concurrency, 1), k) && own == p.perTargetMs * k
    else own <= 0
  }

  // There is a ceiling exactly when the phase is paced, at a positive rate, not by
  // the browser, and may not run for ever; and it is the rate times the whole
  // seconds of its own budget or of the scan's, whichever ends first.
  lemma PaceCeilingIff(p: Pace, targets: int, scanMs: int)
    ensures PaceCeiling(p, targets, scanMs).Some? <==>
      p.paced && !p.browser && p.rate > 0 && (p.perPhaseMs > 0 || p.perTargetMs > 0 || scanMs > 0)
    ensures PaceCeiling(p, targets, scanMs).Some? ==>
      exists own, ms :: OwnBudget(p, targets, own) && PaceCeiling(p, targets, scanMs) == Some(p.rate * (ms / 1000)) &&
        ((ms == own && own > 0) || (ms == scanMs && scanMs > 0)) &&
        (own > 0 ==> ms <= own) && (scanMs > 0 ==> ms <= scanMs)
  {
    var conc, hosts := Max(p.concurrency, 1), Max(targets, 1);
    var k := (hosts + conc - 1) / conc;
    RoundsFit(hosts, conc);
    assert k >= 1;
    var own := if p.perPhaseMs <= 0 && p.perTargetMs > 0 then p.perTargetMs * k else p.perPhaseMs;
    assert p.perTargetMs > 0 ==> p.perTargetMs * k > 0 by {
      if p.perTargetMs > 0 { Times(p.perTargetMs, 1, k); }
    }
    assert OwnBudget(p, targets, own);
    var ms := Wall(p, targets, scanMs);
    assert (own > 0 ==> ms <= own) && (scanMs > 0 ==> ms <= scanMs);
  }

  // A phase's pace never allows more than its rate over the whole scan.
  lemma PaceCeilingIsWithinTheScan(p: Pace, targets: int, scanMs: int)
    requires scanMs > 0 && PaceCeiling(p, targets, scanMs).Some?
    ensures 0 <= PaceCeiling(p, targets, scanMs).value <= p.rate * scanMs / 1000
  {
    var wall := Wall(p, targets, scanMs);
    assert wall <= scanMs;
    WholeSeconds(p.rate, wall, scanMs);
  }

  // ------------------------------------------------- one phase's bounds

  datatype Tier = Light | Moderate | Heavier

  // Requests for a number of tests, at the payloads per test of a tier.
  function Paid(tests: int, t: Tier): int {
    match t
    case Light => tests * 2
    case Moderate => tests * 8
    case Heavier => tests * 25
  }

  // What the phases' bounds are computed from: admitted targets, stored records,
  // and the settings of each phase.
  datatype Input = Input(
    targets: int, records: int, advanced: bool, ports: int, harvestUrls: int, states: int,
    originLow: int, originExtra: int, words: int, recursion: Option<int>, seedStates: int,
    endpointsPerHost: int, requestsPerEndpoint: int,
    perRecord: int, perPoint: int, perHost: int, points: real, discovers: bool, tier: Tier)

  predicate Counted(n: Input) {
    && n.targets >= 0 && n.records >= 0 && n.originLow >= 0 && n.originExtra >= 0 && n.words >= 0 && n.seedStates >= 0
    && n.endpointsPerHost >= 0 && n.perRecord >= 0 && n.perPoint >= 0 && n.perHost >= 0 && n.points >= 0.0
  }

  datatype Kind =
    | Preflight | Heuristics | PortSweep | HarvestProbe | Spidering | Probe | Fingerprint | Discovery
    | Respider | Seed | ParamMining | Assessment | KnownIssues

  function Ceil(r: real): int {
    -((-r).Floor)
  }

  function States(n: Input): int {
    if n.states <= 0 then 1500 else n.states
  }

  function Endpoints(n: Input): int {
    var all := Max(n.targets, 1) * n.endpointsPerHost;
    if n.records > 0 then Min(all, n.records) else all
  }

  function PerRecord(n: Input): real {
    n.perRecord as real + n.perPoint as real * n.points
  }

  function MoreRecords(n: Input): int {
    n.records + n.targets + if n.discovers then n.targets * 200 else 0
  }

  function Tests(records: int, n: Input): int {
    Ceil(records as real * PerRecord(n))
  }

  function HostRequests(n: Input): int {
    n.perHost * Max(n.targets, 1)
  }

  function RangeOf(k: Kind, n: Input): Range {
    var t := n.targets;
    match k
    case Preflight | Seed => Range(t, t)
    case Heuristics => Range(t, if n.advanced then 6 * t else 3 * t)
    case PortSweep => Range(t, t * n.ports)
    case HarvestProbe => Range(t, t + t * n.harvestUrls)
    case Spidering => Range(t * 20, t * States(n) * 15)
    case Probe => Range(t, 2 * t)
    case Fingerprint => Range(t * n.originLow, t * (n.originLow + n.originExtra))
    case Discovery =>
      var low := t * n.words;
      Range(low, low * (if n.recursion.Some? then Min(Max(n.recursion.value, 1), 3) else 1) + t * 200)
    case Respider => Range(0, n.seedStates * 15)
    case ParamMining => Range(Min(Endpoints(n), Max(t, 1) * 5) * 10, Endpoints(n) * n.requestsPerEndpoint)
    case Assessment =>
      Range(Tests(Max(n.records, t), n) + HostRequests(n),
        Paid(Tests(MoreRecords(n), n), n.tier) + Paid(HostRequests(n), n.tier))
    case KnownIssues => Range(t * 100, t * 3000)
  }

  // What keeps a phase's low bound from passing its high one: for most phases
  // nothing is needed.
  predicate Sensible(k: Kind, n: Input) {
    match k
    case PortSweep => n.targets == 0 || n.ports >= 1
    case HarvestProbe => n.targets == 0 || n.harvestUrls >= 0
    case Spidering => n.targets == 0 || n.states != 1
    case _ => true
  }

  lemma AtLeast(k: int, a: int, b: int)
    requires k >= 0
    ensures k * a <= k * b <==> k == 0 || a <= b
  {
    if k > 0 && a > b { Times(k, b + 1, a); }
    if a <= b { Times(k, a, b); }
  }

  lemma NonNegative(a: int, r: real)
    requires a >= 0 && r >= 0.0
    ensures a as real * r >= 0.0
  {
  }

  lemma PerRecordIsNonNegative(n: Input)
    requires Counted(n)
    ensures PerRecord(n) >= 0.0
  {
    NonNegative(n.perPoint, n.points);
  }

  lemma CeilGrows(a: int, b: int, each: real)
    requires 0 <= a <= b && each >= 0.0
    ensures 0 <= Ceil(a as real * each) <= Ceil(b as real * each)
  {
    NonNegative(a, each);
    NonNegative(b - a, each);
    assert b as real * each == a as real * each + (b - a) as real * each;
  }

  lemma TestsGrow(n: Input, a: int, b: int)
    requires Counted(n) && 0 <= a <= b
    ensures 0 <= Tests(a, n) <= Tests(b, n)
  {
    PerRecordIsNonNegative(n);
    CeilGrows(a, b, PerRecord(n));
  }

  lemma HostRequestsAreNonNegative(n: Input)
    requires Counted(n)
    ensures HostRequests(n) >= 0
  {
    Times(n.perHost, 0, Max(n.targets, 1));
  }

  lemma PaidGrows(a: int, b: int, h: int, t: Tier)
    requires 0 <= a <= b && h >= 0
    ensures a + h <= Paid(b, t) + Paid(h, t)
  {
  }

  lemma AssessmentIsOrdered(n: Input)
    requires Counted(n)
    ensures RangeOf(Assessment, n).low <= RangeOf(Assessment, n).high
  {
    TestsGrow(n, Max(n.records, n.targets), MoreRecords(n));
    HostRequestsAreNonNegative(n);
    PaidGrows(Tests(Max(n.records, n.targets), n), Tests(MoreRecords(n), n), HostRequests(n), n.tier);
  }

  // Every phase but the mining: the low bound is below the high one exactly when
  // its setting is a sensible one.
  lemma BoundsAreOrderedIff(k: Kind, n: Input)
    requires Counted(n) && !k.ParamMining?
    ensures RangeOf(k, n).low <= RangeOf(k, n).high <==> Sensible(k, n)
  {
    var t := n.targets;
    match k
    case PortSweep => AtLeast(t, 1, n.ports);
    case HarvestProbe => AtLeast(t, 0, n.harvestUrls);
    case Spidering => AtLeast(t, 20, States(n) * 15); assert t * States(n) * 15 == t * (States(n) * 15);
    case Fingerprint => Times(t, n.originLow, n.originLow + n.originExtra);
    case Discovery =>
      Times(t, 0, n.words);
      Times(t * n.words, 1, if n.recursion.Some? then Min(Max(n.recursion.value, 1), 3) else 1);
    case Assessment => AssessmentIsOrdered(n);
    case _ =>
  }

  // The least whole number that is at least this.
  predicate LeastAtLeast(i: int, x: real) {
    x <= i as real < x + 1.0
  }

  // What one target costs at least and at most, where the cost is the target's.
  function TargetRange(k: Kind, n: Input): Range {
    match k
    case Preflight | Seed => Range(1, 1)
    case Heuristics => Range(1, if n.advanced then 6 else 3)
    case PortSweep => Range(1, n.ports)
    case HarvestProbe => Range(1, 1 + n.harvestUrls)
    case Spidering => Range(20, if n.states <= 0 then 22500 else 15 * n.states)
    case Probe => Range(1, 2)
    case Fingerprint => Range(n.originLow, n.originLow + n.originExtra)
    case Discovery =>
      var times := if n.recursion.None? || n.recursion.value <= 1 then 1 else if n.recursion.value == 2 then 2 else 3;
      Range(n.words, n.words * times + 200)
    case KnownIssues => Range(100, 3000)
    case _ => Range(0, 0)
  }

  lemma Regroup(t: int, a: int, b: int)
    ensures t * a * b == t * (a * b) && t * (a + b) == t * a + t * b
  {
  }

  // The bounds are those of one target times the targets, for every phase that
  // works target by target.
  lemma BoundsArePerTarget(k: Kind, n: Input)
    requires !k.Respider? && !k.ParamMining? && !k.Assessment?
    ensures RangeOf(k, n) == Range(n.targets * TargetRange(k, n).low, n.targets * TargetRange(k, n).high)
  {
    var t := n.targets;
    match k
    case HarvestProbe => Regroup(t, 1, n.harvestUrls);
    case Spidering => Regroup(t, States(n), 15);
    case Discovery =>
      var times := if n.recursion.Some? then Min(Max(n.recursion.value, 1), 3) else 1;
      Regroup(t, n.words, times);
      Regroup(t, n.words * times, 200);
    case _ =>
  }

  // The assessment sends at least one request for every test of what is stored,
  // or of one record a target, and at most a tier's payloads for every test of
  // what may be stored by then; a test is a module's on a record or an insertion
  // point of it, and host modules go once over every host.
  lemma AssessmentIsTests(n: Input) returns (least: int, most: int)
    ensures LeastAtLeast(least, (if n.records > n.targets then n.records else n.targets) as real * PerRecord(n))
    ensures var found := if n.discovers then 200 * n.targets else 0;
      LeastAtLeast(most, (n.records + n.targets + found) as real * PerRecord(n))
    ensures var hosts := if n.targets > 1 then n.targets else 1;
      var payloads := if n.tier.Light? then 2 else if n.tier.Moderate? then 8 else 25;
      RangeOf(Assessment, n) == Range(least + n.perHost * hosts, payloads * (most + n.perHost * hosts))
    ensures PerRecord(n) == n.perRecord as real + n.perPoint as real * n.points
  {
    least, most := Tests(Max(n.records, n.targets), n), Tests(MoreRecords(n), n);
    assert MoreRecords(n) == n.records + n.targets + if n.discovers then 200 * n.targets else 0;
  }

  // The mining asks its requests of every endpoint it is given, one host's share for
  // each target, but no more endpoints than there are records; and ten of at most
  // five endpoints a host at least.
  lemma MiningIsPerEndpoint(n: Input) returns (endpoints: int)
    ensures var hosts, mined := if n.targets > 1 then n.targets else 1, RangeOf(ParamMining, n);
      && endpoints <= hosts * n.endpointsPerHost && (n.records > 0 ==> endpoints <= n.records)
      && (endpoints == hosts * n.endpointsPerHost || (n.records > 0 && endpoints == n.records))
      && mined.high == endpoints * n.requestsPerEndpoint
      && mined.low <= 10 * endpoints && mined.low <= 50 * hosts
      && (mined.low == 10 * endpoints || mined.low == 50 * hosts)
  {
    endpoints := Endpoints(n);
  }

  lemma RespideringIsPerState(n: Input)
    ensures RangeOf(Respider, n) == Range(0, 15 * n.seedStates)
  {
  }

  predicate MiningOrdered(n: Input) {
    RangeOf(ParamMining, n).low <= RangeOf(ParamMining, n).high
  }

  // The mining's bounds are in order exactly when there is nothing to mine, or an
  // endpoint takes at least ten requests, or there are more than five endpoints a
  // host and all of them take fifty requests a host.
  lemma MiningIsOrderedIff(n: Input)
    requires Counted(n)
    ensures var hosts, e, r := Max(n.targets, 1), Endpoints(n), n.requestsPerEndpoint;
      MiningOrdered(n) <==> e == 0 || r >= 10 || (e > 5 * hosts && e * r >= 50 * hosts)
  {
    var hosts, e, r := Max(n.targets, 1), Endpoints(n), n.requestsPerEndpoint;
    Times(hosts, 0, n.endpointsPerHost);
    AtLeast(e, 10, r);
  }

  // So for every count of targets, records and endpoints they are in order
  // exactly when an endpoint takes at least ten requests.
  lemma MiningIsAlwaysOrderedIff(n: Input)
    requires Counted(n)
    ensures n.requestsPerEndpoint >= 10 <==>
      forall t: nat, r: nat, e: nat :: MiningOrdered(n.(targets := t, records := r, endpointsPerHost := e))
  {
    if n.requestsPerEndpoint >= 10 {
      forall t: nat, r: nat, e: nat ensures MiningOrdered(n.(targets := t, records := r, endpointsPerHost := e)) {
        MiningIsOrderedIff(n.(targets := t, records := r, endpointsPerHost := e));
      }
    } else {
      var one := n.(targets := 1 as nat, records := 0 as nat, endpointsPerHost := 1 as nat);
      assert Endpoints(one) == 1;
      MiningIsOrderedIff(one);
    }
  }
}
