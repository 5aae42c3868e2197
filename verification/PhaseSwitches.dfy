/**
  When a selection is refused, what every switch says after one that is not, and
  what a scan without either flag runs.
*/
module PhaseSwitches {
  import opened Common
  import opened Texts
  import opened PhaseSelection
  import opened PhasePlan
  import opened PhaseProofs

  // ------------------------------------------------- the list of --only

  // An entry the list may have: a blank one, or one that names a phase that is
  // not only scheduled on its own gate.
  predicate Nameable(w: Words, part: string) {
    var p := w.trim(part);
    p == "" || (Lookup(w, p).Some? && Lookup(w, p).value !in {HarvestProbe, ParamMining, Seed, Preflight})
  }

  // The entry names the phase.
  predicate NamesIt(w: Words, part: string, id: Id) {
    w.trim(part) != "" && Lookup(w, w.trim(part)) == Some(id)
  }

  ghost predicate Named(w: Words, parts: seq<string>, id: Id) {
    exists part :: part in parts && NamesIt(w, part, id)
  }

  // Some entry names the phase, and none before it names the other.
  ghost predicate MentionedBefore(w: Words, parts: seq<string>, a: Id, b: Id) {
    exists k :: 0 <= k < |parts| && NamesIt(w, parts[k], a) && forall i :: 0 <= i < k ==> !NamesIt(w, parts[i], b)
  }

  ghost predicate InOrder(w: Words, parts: seq<string>, ids: seq<Id>) {
    forall i, j :: 0 <= i < j < |ids| ==> MentionedBefore(w, parts, ids[i], ids[j])
  }

  // What a list with only good entries parses to.
  ghost predicate ListedBy(w: Words, parts: seq<string>, ids: seq<Id>) {
    Distinct(ids) && InOrder(w, parts, ids) && forall id :: id in ids <==> Named(w, parts, id)
  }

  lemma MentionedStill(w: Words, parts: seq<string>, part: string, a: Id, b: Id)
    requires MentionedBefore(w, parts, a, b)
    ensures MentionedBefore(w, parts + [part], a, b)
  {
    var all := parts + [part];
    var k :| 0 <= k < |parts| && NamesIt(w, parts[k], a) && forall i :: 0 <= i < k ==> !NamesIt(w, parts[i], b);
    assert all[k] == parts[k] && forall i :: 0 <= i < k ==> all[i] == parts[i];
  }

  // A phase in the list is mentioned before one no entry has named yet.
  lemma MentionedFirst(w: Words, parts: seq<string>, part: string, a: Id, b: Id)
    requires Named(w, parts, a) && !Named(w, parts, b)
    ensures MentionedBefore(w, parts + [part], a, b)
  {
    var all := parts + [part];
    var p :| p in parts && NamesIt(w, p, a);
    var k :| 0 <= k < |parts| && parts[k] == p;
    assert all[k] == p;
    forall i | 0 <= i < k ensures !NamesIt(w, all[i], b) { assert all[i] == parts[i] && parts[i] in parts; }
  }

  lemma NamedOneMore(w: Words, parts: seq<string>, part: string, id: Id)
    ensures Named(w, parts + [part], id) <==> Named(w, parts, id) || NamesIt(w, part, id)
  {
    assert forall p :: p in parts + [part] <==> p in parts || p == part;
  }

  lemma ListedOneMore(w: Words, parts: seq<string>, ids: seq<Id>, part: string)
    requires ListedBy(w, parts, ids) && Nameable(w, part)
    ensures var more := if w.trim(part) == "" || Lookup(w, w.trim(part)).value in ids then []
        else [Lookup(w, w.trim(part)).value];
      ListedBy(w, parts + [part], ids + more)
  {
    var all := parts + [part];
    var more := if w.trim(part) == "" || Lookup(w, w.trim(part)).value in ids then []
      else [Lookup(w, w.trim(part)).value];
    var ids' := ids + more;
    forall id ensures id in ids' <==> Named(w, all, id) { NamedOneMore(w, parts, part, id); }
    forall i, j | 0 <= i < j < |ids'| ensures MentionedBefore(w, all, ids'[i], ids'[j]) {
      if j < |ids| {
        MentionedStill(w, parts, part, ids[i], ids[j]);
      } else {
        assert ids[i] in ids;
        MentionedFirst(w, parts, part, ids[i], ids'[j]);
      }
    }
  }

  // The k-th entry is the first that may not be there.
  ghost predicate FirstBadEntry(w: Words, parts: seq<string>, k: nat) {
    k < |parts| && !Nameable(w, parts[k]) && forall i :: 0 <= i < k ==> Nameable(w, parts[i])
  }

  ghost predicate RefusedAtFirst(w: Words, parts: seq<string>, error: Refusal) {
    exists k: nat :: FirstBadEntry(w, parts, k) && error == BadOnly(w.trim(parts[k]))
  }

  lemma RefusedStill(w: Words, parts: seq<string>, part: string, error: Refusal)
    requires RefusedAtFirst(w, parts, error)
    ensures RefusedAtFirst(w, parts + [part], error)
  {
    var all := parts + [part];
    var k: nat :| FirstBadEntry(w, parts, k) && error == BadOnly(w.trim(parts[k]));
    assert forall i :: 0 <= i <= k ==> all[i] == parts[i];
    assert FirstBadEntry(w, all, k);
  }

  lemma RefusedNow(w: Words, parts: seq<string>, part: string)
    requires !Nameable(w, part) && forall p :: p in parts ==> Nameable(w, p)
    ensures RefusedAtFirst(w, parts + [part], BadOnly(w.trim(part)))
  {
    var all := parts + [part];
    assert forall i :: 0 <= i < |parts| ==> all[i] == parts[i] && parts[i] in parts;
    assert FirstBadEntry(w, all, |parts|);
  }

  ghost predicate AllNameable(w: Words, parts: seq<string>) {
    forall part :: part in parts ==> Nameable(w, part)
  }

  lemma {:induction false} ParseListsOrRefuses(w: Words, parts: seq<string>)
    ensures Parse(w, parts).Ok? ==> AllNameable(w, parts) && ListedBy(w, parts, Parse(w, parts).value)
    ensures Parse(w, parts).Err? ==> !AllNameable(w, parts) && RefusedAtFirst(w, parts, Parse(w, parts).error)
  {
    if parts != [] {
      var init, part := parts[..|parts| - 1], parts[|parts| - 1];
      assert parts == init + [part];
      ParseListsOrRefuses(w, init);
      if Parse(w, init).Err? {
        RefusedStill(w, init, part, Parse(w, init).error);
      } else if Nameable(w, part) {
        ListedOneMore(w, init, Parse(w, init).value, part);
      } else {
        RefusedNow(w, init, part);
      }
    }
  }

  ghost predicate AllBlank(w: Words, parts: seq<string>) {
    forall part :: part in parts ==> w.trim(part) == ""
  }

  lemma NoneListedIffBlank(w: Words, parts: seq<string>, ids: seq<Id>)
    requires AllNameable(w, parts) && ListedBy(w, parts, ids)
    ensures ids == [] <==> AllBlank(w, parts)
  {
    forall part | part in parts && w.trim(part) != "" ensures ids != [] {
      assert Nameable(w, part) && NamesIt(w, part, Lookup(w, w.trim(part)).value);
      assert Lookup(w, w.trim(part)).value in ids;
    }
    if ids != [] {
      assert Named(w, parts, ids[0]);
    }
  }

  // The phases --only names: each once, in the order they are first mentioned.
  // The list is refused exactly when some entry names none it may, the first such
  // one being reported, or when all are blank.
  lemma OnlyListIsRead(w: Words, raw: string)
    ensures var parts := Split(raw, ',');
      match ParseOnly(w, raw)
      case Ok(ids) => AllNameable(w, parts) && !AllBlank(w, parts) && ListedBy(w, parts, ids)
      case Err(EmptyOnly) => AllBlank(w, parts)
      case Err(e) => !AllNameable(w, parts) && RefusedAtFirst(w, parts, e)
  {
    var parts := Split(raw, ',');
    ParseListsOrRefuses(w, parts);
    if Parse(w, parts).Ok? { NoneListedIffBlank(w, parts, Parse(w, parts).value); }
  }

  // ------------------------------------------------- refusals

  // An entry of --skip that names no phase, or the seeding.
  predicate Unskippable(w: Words, part: string) {
    Lookup(w, part).None? || Lookup(w, part) == Some(Seed)
  }

  ghost predicate FirstUnskippable(w: Words, phases: seq<string>, k: nat) {
    k < |phases| && Unskippable(w, phases[k]) && forall i :: 0 <= i < k ==> !Unskippable(w, phases[i])
  }

  ghost predicate SomeUnskippable(w: Words, phases: seq<string>) {
    exists part :: part in phases && Unskippable(w, part)
  }

  lemma FirstUnskippableLater(w: Words, phases: seq<string>, k: nat)
    requires phases != [] && !Unskippable(w, phases[0]) && FirstUnskippable(w, phases[1..], k)
    ensures FirstUnskippable(w, phases, k + 1)
  {
    assert forall i :: 0 < i <= k + 1 ==> phases[i] == phases[1..][i - 1];
  }

  // --skip is refused at its first entry that names none it may.
  lemma {:induction false} SkippingIsRefusedIff(w: Words, g: Gates, notes: map<Id, Reason>, phases: seq<string>)
    ensures var r := SkipAll(w, g, notes, phases).refusal;
      && (r.Some? <==> SomeUnskippable(w, phases))
      && (r.Some? ==> exists k: nat :: FirstUnskippable(w, phases, k) && r == Some(BadSkip(phases[k])))
    decreases |phases|
  {
    if phases != [] {
      if Unskippable(w, phases[0]) {
        assert phases[0] in phases && FirstUnskippable(w, phases, 0);
      } else {
        var id, r := Lookup(w, phases[0]).value, SkipAll(w, g, notes, phases).refusal;
        SkippingIsRefusedIff(w, SkipGate(g, id), NoteSkipped(notes, id), phases[1..]);
        assert forall part :: part in phases <==> part == phases[0] || part in phases[1..];
        if r.Some? {
          var k: nat :| FirstUnskippable(w, phases[1..], k) && r == Some(BadSkip(phases[1..][k]));
          FirstUnskippableLater(w, phases, k);
        }
      }
    }
  }

  lemma NormalizedIsAsSkippable(w: Words, skips: seq<string>)
    requires WellSpelled(w)
    ensures SomeUnskippable(w, Map(skips, s => Normalize(w, s))) <==> SomeUnskippable(w, skips)
  {
    var n := Map(skips, s => Normalize(w, s));
    forall i | 0 <= i < |skips| ensures Unskippable(w, n[i]) <==> Unskippable(w, skips[i]) {
      NormalizeStays(w, skips[i]);
    }
    if part :| part in n && Unskippable(w, part) {
      var i :| 0 <= i < |n| && n[i] == part;
      assert skips[i] in skips;
    }
    if part :| part in skips && Unskippable(w, part) {
      var i :| 0 <= i < |skips| && skips[i] == part;
      assert n[i] in n;
    }
  }

  // The re-spider is named without both the crawl it extends and what fetches its
  // candidates.
  predicate Alone(ids: seq<Id>) {
    TargetedRespider in ids && (Spidering !in ids || (Discovery !in ids && Ingestion !in ids))
  }

  // A selection is refused exactly when both flags are given, the --only list is
  // not one or names the re-spider alone, or a --skip entry names nothing it may.
  lemma SelectionIsRefusedIff(w: Words, o: Options)
    requires WellSpelled(w)
    ensures Apply(w, o).1.Some? <==>
      if o.only == "" then SomeUnskippable(w, o.skips)
      else o.skips != [] || ParseOnly(w, o.only).Err? || Alone(ParseOnly(w, o.only).value)
  {
    if o.only == "" {
      SkippingIsRefusedIff(w, o.gates, o.notes, Map(o.skips, s => Normalize(w, s)));
      NormalizedIsAsSkippable(w, o.skips);
    }
  }

  // ------------------------------------------------- the switches afterwards

  // --only turns each phase's switch on exactly when its list names the phase;
  // discovery and ingestion share a fetch, an assessment is one of the built-in
  // modules or of the extensions, and it is of the extensions alone exactly when
  // they are named and it is not. What it cannot name stays as it was.
  lemma OnlySwitches(w: Words, o: Options)
    requires o.only != "" && Apply(w, o).1.None?
    ensures ParseOnly(w, o.only).Ok?
    ensures var ids, g, n := ParseOnly(w, o.only).value, o.gates, Apply(w, o).0.gates;
      && (n.discover <==> Discovery in ids) && (n.harvest <==> ExternalHarvest in ids)
      && (n.spider <==> Spidering in ids) && (n.issues <==> KnownIssueScan in ids)
      && (n.probe <==> Probe in ids) && (n.fingerprint <==> Fingerprint in ids)
      && (n.skipIngestion <==> !(Discovery in ids || Ingestion in ids))
      && (n.skipAssessment <==> !(DynamicAssessment in ids || Extension in ids))
      && (n.skipPortSweep <==> PortSweep !in ids)
      && n.skipRespider == g.skipRespider && n.skipPreflight == g.skipPreflight
    ensures var ids, g, n := ParseOnly(w, o.only).value, o.gates, Apply(w, o).0.gates;
      && (n.extensionsOnly <==>
           (Extension in ids && DynamicAssessment !in ids) || (Extension !in ids && g.extensionsOnly))
      && (Extension in ids ==> n.extensions == Some(true)) && (Extension !in ids ==> n.extensions == g.extensions)
      && (HeuristicsCheck !in ids ==> n.heuristics == Off)
      && (HeuristicsCheck in ids ==> n.heuristics !in {Blank, Off})
      && (HeuristicsCheck in ids && g.heuristics !in {Blank, Off} ==> n.heuristics == g.heuristics)
      && (HeuristicsCheck in ids && g.heuristics in {Blank, Off} ==> n.heuristics == Basic)
  {
  }

  // The phase is listed, under either of its names.
  predicate Listed(ids: seq<Id>, id: Id) {
    id in ids || (id == Discovery && Ingestion in ids) || (id == DynamicAssessment && Extension in ids)
  }

  lemma NoteAfterIs(notes: map<Id, Reason>, ids: seq<Id>, id: Id)
    ensures var before, after := if id in notes then Some(notes[id]) else None, NoteAfter(notes, ids, id);
      var kept := id in {HarvestProbe, ParamMining, Seed, Preflight} || (id == TargetedRespider && id !in ids);
      after == if kept then before else if Listed(ids, id) then None else Some(ByOnly)
  {
  }

  // --only records, of every phase it can name, that it left it out exactly when
  // neither it nor its other name is listed; what rides on others it leaves to
  // the plan.
  lemma OnlyRecordsIff(w: Words, o: Options, id: Id)
    requires WellSpelled(w) && o.only != "" && Apply(w, o).1.None?
    ensures ParseOnly(w, o.only).Ok?
    ensures var ids, before, after := ParseOnly(w, o.only).value, o.notes, Apply(w, o).0.notes;
      if id in {HarvestProbe, ParamMining, Seed, Preflight} || (id == TargetedRespider && id !in ids) then
        (id in after <==> id in before) && (id in before ==> after[id] == before[id])
      else (id in after <==> !Listed(ids, id)) && (id in after ==> after[id] == ByOnly)
  {
    InVocabulary(id);
    OnlyRecords(w, o, id);
    NoteAfterIs(o.notes, ParseOnly(w, o.only).value, id);
  }

  // The two switches no plan step is gated on.
  predicate FlagsShut(w: Words, g: Gates, phases: seq<string>, n: Gates) {
    var fetches := !Skips(w, phases, Discovery) && !Skips(w, phases, Ingestion);
    && (n.discover <==> g.discover && fetches)
    && (n.extensionsOnly <==> g.extensionsOnly && !Skips(w, phases, Extension))
  }

  lemma FlagsShutOneMore(w: Words, g: Gates, phases: seq<string>, n: Gates)
    requires phases != [] && Lookup(w, phases[0]).Some?
    requires FlagsShut(w, Masked(g, Lookup(w, phases[0]).value), phases[1..], n)
    ensures FlagsShut(w, g, phases, n)
  {
  }

  lemma {:induction false} SkippingShutsFlags(w: Words, g: Gates, notes: map<Id, Reason>, phases: seq<string>)
    requires SkipAll(w, g, notes, phases).refusal.None?
    ensures FlagsShut(w, g, phases, SkipAll(w, g, notes, phases).gates)
    decreases |phases|
  {
    if phases != [] {
      var id := Lookup(w, phases[0]).value;
      SkippingIsMasking(g, id);
      SkippingShutsFlags(w, SkipGate(g, id), NoteSkipped(notes, id), phases[1..]);
      FlagsShutOneMore(w, g, phases, SkipAll(w, g, notes, phases).gates);
    }
  }

  lemma WithoutSame(w: Words, g: Gates, a: seq<string>, b: seq<string>, n: Gates)
    requires Without(w, g, a, n) && FlagsShut(w, g, a, n) && forall id :: Skips(w, a, id) <==> Skips(w, b, id)
    ensures Without(w, g, b, n) && FlagsShut(w, g, b, n)
  {
  }

  // --skip shuts the switches of the phases it names and leaves every other one,
  // the sweep policy included, as it was.
  lemma SkipSwitches(w: Words, o: Options)
    requires WellSpelled(w) && o.only == "" && Apply(w, o).1.None?
    ensures Without(w, o.gates, o.skips, Apply(w, o).0.gates) && FlagsShut(w, o.gates, o.skips, Apply(w, o).0.gates)
    ensures Apply(w, o).0.sweep == o.sweep && Apply(w, o).0.asked == o.asked && Apply(w, o).0.only == ""
  {
    var skips := Apply(w, o).0.skips;
    SkippingIsWithout(w, o.gates, o.notes, skips);
    SkippingShutsFlags(w, o.gates, o.notes, skips);
    forall id ensures Skips(w, skips, id) <==> Skips(w, o.skips, id) { NormalizedSkips(w, o.skips, id); }
    WithoutSame(w, o.gates, skips, o.skips, Apply(w, o).0.gates);
  }

  // ------------------------------------------------- neither flag

  // Some step but the harvesting and what comes before it is asked for.
  predicate ReachesTarget(g: Gates) {
    g.spider || g.probe || g.fingerprint || !g.skipIngestion || !g.skipAssessment || g.issues
  }

  // What a scan is asked for beside any selection.
  predicate AskedFor(o: Options, id: Id) {
    var g := o.gates;
    var assessed, fetched := !g.skipAssessment, !g.skipIngestion;
    match id
    case HeuristicsCheck => g.heuristics.Basic? || g.heuristics.Chosen?
    case PortSweep => !g.skipPortSweep && (o.asked.deep || o.asked.followSubdomains)
    case ExternalHarvest => g.harvest
    case Spidering => g.spider
    case Probe => g.probe
    case Fingerprint => g.fingerprint
    case Discovery => fetched
    case TargetedRespider => g.spider && fetched && assessed && !g.skipRespider
    case Seed => !fetched && !o.asked.scanOnReceive && (assessed || g.issues)
    case ParamMining => assessed && (o.asked.paramMining == Some(true) || (o.asked.paramMining.None? && o.asked.deep))
    case DynamicAssessment => assessed
    case KnownIssueScan => g.issues
    case HarvestProbe => g.harvest && ReachesTarget(g)
    case _ => false
  }

  lemma PlainGate(w: Words, o: Options, id: Id)
    requires o.only == "" && o.skips == [] && id != HarvestProbe
    ensures (id in ORDER && Gate(w, o, id)) <==> AskedFor(o, id)
  {
    Placed(id);
  }

  lemma PlainProbe(w: Words, o: Options)
    requires o.only == "" && o.skips == []
    ensures SomethingBehind(w, o) <==> ReachesTarget(o.gates)
  {
    if i :| 4 <= i < |ORDER| && Gate(w, o, ORDER[i]) {
      Placed(ORDER[i]);
      PlainGate(w, o, ORDER[i]);
    }
    Placed(Spidering);
    Placed(Probe);
    Placed(Fingerprint);
    Placed(Discovery);
    Placed(DynamicAssessment);
    Placed(KnownIssueScan);
  }

  // Without --only and --skip the plan runs exactly what the scan is asked for.
  lemma PlainScanRunsWhatIsAskedFor(w: Words, o: Options, id: Id)
    requires o.only == "" && o.skips == []
    ensures Runs(w, o, id) <==> AskedFor(o, id)
  {
    RunsIffItOpens(w, o, id);
    if id == HarvestProbe {
      PlainProbe(w, o);
    } else {
      PlainGate(w, o, id);
    }
  }
}
