/**
  What --only and --skip do to a scan: a second application changes nothing,
  --only runs what it names and what rides on it, --skip only takes away.
*/
module PhaseProofs {
  import opened Common
  import opened Texts
  import opened PhaseSelection
  import opened PhasePlan

  // ------------------------------------------------- applying twice

  // Skipping the phase again would change nothing.
  predicate Absorbs(g: Gates, notes: map<Id, Reason>, id: Id) {
    SkipGate(g, id) == g && NoteSkipped(notes, id) == notes
  }

  lemma NoteIsAbsorbed(notes: map<Id, Reason>, id: Id, next: Id)
    requires id == next || NoteSkipped(notes, id) == notes
    ensures NoteSkipped(NoteSkipped(notes, next), id) == NoteSkipped(notes, next)
  {
    if id != next {
      assert id in notes by { assert notes.Keys == NoteSkipped(notes, id).Keys; }
      assert notes[id := BySkip] == notes || notes[id] == ByModuleSelection;
    }
    var n := NoteSkipped(notes, next);
    assert id in n && (n[id] == ByModuleSelection || n[id] == BySkip);
    assert n[id] == BySkip ==> n[id := BySkip] == n;
  }

  // The gate a skip of the phase shuts is shut.
  predicate Shut(g: Gates, id: Id) {
    match id
    case Discovery | Ingestion => g.skipIngestion && !g.discover
    case ExternalHarvest => !g.harvest
    case Spidering => !g.spider
    case Probe => !g.probe
    case Fingerprint => !g.fingerprint
    case KnownIssueScan => !g.issues
    case DynamicAssessment => g.skipAssessment
    case Extension => !g.extensionsOnly && g.extensions == Some(false)
    case HeuristicsCheck => g.heuristics == Off
    case PortSweep => g.skipPortSweep
    case TargetedRespider => g.skipRespider
    case Preflight => g.skipPreflight
    case HarvestProbe | ParamMining | Seed => true
  }

  lemma ShutIsSkipped(g: Gates, id: Id)
    ensures Shut(g, id) <==> SkipGate(g, id) == g
  {
  }

  lemma SkippingShuts(g: Gates, id: Id, next: Id)
    requires id == next || Shut(g, id)
    ensures Shut(SkipGate(g, next), id)
  {
  }

  lemma GateIsAbsorbed(g: Gates, id: Id, next: Id)
    requires id == next || SkipGate(g, id) == g
    ensures SkipGate(SkipGate(g, next), id) == SkipGate(g, next)
  {
    ShutIsSkipped(g, id);
    SkippingShuts(g, id, next);
    ShutIsSkipped(SkipGate(g, next), id);
  }

  lemma SkipIsAbsorbed(g: Gates, notes: map<Id, Reason>, id: Id, next: Id)
    requires id == next || Absorbs(g, notes, id)
    ensures Absorbs(SkipGate(g, next), NoteSkipped(notes, next), id)
  {
    NoteIsAbsorbed(notes, id, next);
    GateIsAbsorbed(g, id, next);
  }

  lemma {:induction false} SkipAllKeepsAbsorbed(w: Words, g: Gates, notes: map<Id, Reason>, phases: seq<string>, id: Id)
    requires Absorbs(g, notes, id)
    ensures Absorbs(SkipAll(w, g, notes, phases).gates, SkipAll(w, g, notes, phases).notes, id)
    decreases |phases|
  {
    if phases != [] && Lookup(w, phases[0]).Some? && Skippable(Lookup(w, phases[0]).value) {
      var next := Lookup(w, phases[0]).value;
      SkipIsAbsorbed(g, notes, id, next);
      SkipAllKeepsAbsorbed(w, SkipGate(g, next), NoteSkipped(notes, next), phases[1..], id);
    }
  }

  lemma {:induction false} SkippingTwice(w: Words, g: Gates, notes: map<Id, Reason>, phases: seq<string>)
    ensures var after := SkipAll(w, g, notes, phases); SkipAll(w, after.gates, after.notes, phases) == after
    decreases |phases|
  {
    if phases != [] && Lookup(w, phases[0]).Some? && Skippable(Lookup(w, phases[0]).value) {
      var id := Lookup(w, phases[0]).value;
      var g1, n1 := SkipGate(g, id), NoteSkipped(notes, id);
      SkipIsAbsorbed(g, notes, id, id);
      SkipAllKeepsAbsorbed(w, g1, n1, phases[1..], id);
      SkippingTwice(w, g1, n1, phases[1..]);
    }
  }

  lemma NotingTwice(notes: map<Id, Reason>, ids: seq<Id>, done: seq<Id>)
    ensures NotesAfter(NotesAfter(notes, ids, done), ids, done) == NotesAfter(notes, ids, done)
  {
  }

  lemma NormalizingTwice(w: Words, skips: seq<string>)
    requires WellSpelled(w)
    ensures Map(Map(skips, s => Normalize(w, s)), s => Normalize(w, s)) == Map(skips, s => Normalize(w, s))
  {
    forall i | 0 <= i < |skips| ensures Normalize(w, Normalize(w, skips[i])) == Normalize(w, skips[i]) {
      NormalizeStays(w, skips[i]);
    }
  }

  // The options --only leaves when its list is accepted.
  function Narrowed(w: Words, o: Options, ids: seq<Id>): Options {
    var only, gates := Join(Names(w, ids), ','), SelectOnly(o.gates, ids);
    Options(only, [], gates, NotesAfter(o.notes, ids, VOCABULARY), SweepDefaults(w, only, gates, o.sweep), o.asked)
  }

  lemma OnlyApplies(w: Words, o: Options, ids: seq<Id>)
    requires o.only != "" && o.skips == [] && ParseOnly(w, o.only) == Ok(ids)
    ensures Apply(w, o) == if LoneRespiderIn(ids) then (o.(only := Join(Names(w, ids), ',')), Some(LoneRespider))
      else (Narrowed(w, o, ids), None)
  {
    assert Map(o.skips, s => Normalize(w, s)) == [];
  }

  lemma NarrowingTwice(w: Words, o: Options, ids: seq<Id>)
    ensures Narrowed(w, Narrowed(w, o, ids), ids) == Narrowed(w, o, ids)
  {
    NotingTwice(o.notes, ids, VOCABULARY);
    assert SelectOnly(SelectOnly(o.gates, ids), ids) == SelectOnly(o.gates, ids);
  }

  lemma ParsedIsListable(w: Words, raw: string)
    requires ParseOnly(w, raw).Ok?
    ensures Listable(ParseOnly(w, raw).value)
  {
    ParseIsDistinct(w, Split(raw, ','));
  }

  lemma OnlyStays(w: Words, o: Options, ids: seq<Id>)
    requires WellSpelled(w) && o.only != "" && o.skips == [] && ParseOnly(w, o.only) == Ok(ids)
    ensures Apply(w, Apply(w, o).0) == Apply(w, o)
  {
    ParsedIsListable(w, o.only);
    ParsePrintParse(w, o.only);
    PrintedIsNotBlank(w, ids);
    OnlyApplies(w, o, ids);
    OnlyApplies(w, Apply(w, o).0, ids);
    NarrowingTwice(w, o, ids);
  }

  // Selecting twice is selecting once, refusals included.
  lemma SelectionStays(w: Words, o: Options)
    requires WellSpelled(w)
    ensures Apply(w, Apply(w, o).0) == Apply(w, o)
  {
    NormalizingTwice(w, o.skips);
    if o.only == "" {
      SkippingTwice(w, o.gates, o.notes, Map(o.skips, s => Normalize(w, s)));
    } else if o.skips == [] && ParseOnly(w, o.only).Ok? {
      OnlyStays(w, o, ParseOnly(w, o.only).value);
    }
  }

  // ------------------------------------------------- --only

  // The plan runs the step.
  predicate Runs(w: Words, o: Options, id: Id) {
    exists i :: 0 <= i < |Plan(w, o)| && Plan(w, o)[i].phase == id && Plan(w, o)[i].enabled
  }

  // A step behind the harvest probe has its gate open.
  predicate SomethingBehind(w: Words, o: Options) {
    exists i :: 4 <= i < |ORDER| && Gate(w, o, ORDER[i])
  }

  // A step runs when its gate is open; the harvest probe, when harvesting runs,
  // no skip names it, and a step behind it runs.
  predicate Opens(w: Words, o: Options, id: Id) {
    if id == HarvestProbe then
      o.gates.harvest && !SkipsName(w, o.skips, HarvestProbe) && SomethingBehind(w, o)
    else id in ORDER && Gate(w, o, id)
  }

  // Where a step stands in the plan.
  function Place(id: Id): nat {
    match id
    case HeuristicsCheck => 0
    case PortSweep => 1
    case ExternalHarvest => 2
    case HarvestProbe => 3
    case Spidering => 4
    case Probe => 5
    case Fingerprint => 6
    case Discovery => 7
    case TargetedRespider => 8
    case Seed => 9
    case ParamMining => 10
    case DynamicAssessment => 11
    case KnownIssueScan => 12
    case Ingestion | Extension | Preflight => 13
  }

  lemma Placed(id: Id)
    ensures Place(id) < |ORDER| ==> ORDER[Place(id)] == id
    ensures id in ORDER <==> Place(id) < |ORDER|
    ensures forall i :: 0 <= i < |ORDER| ==> Place(ORDER[i]) == i
  {
  }

  lemma BehindAt(w: Words, o: Options, i: nat)
    requires 4 <= i < |ORDER|
    ensures |Gated(w, o)[4..]| == |ORDER| - 4 && Gated(w, o)[4..][i - 4] == Step(ORDER[i], Gate(w, o, ORDER[i]), false)
  {
    Placed(ExternalHarvest);
  }

  lemma SendsBehindProbe(w: Words, o: Options)
    ensures Sends(Gated(w, o)[4..]) <==> SomethingBehind(w, o)
  {
    var steps := Gated(w, o)[4..];
    BehindAt(w, o, 4);
    if i :| 0 <= i < |steps| && steps[i].enabled && !steps[i].skipsTarget {
      BehindAt(w, o, i + 4);
    }
    if i :| 4 <= i < |ORDER| && Gate(w, o, ORDER[i]) {
      BehindAt(w, o, i);
    }
  }

  lemma StepAt(w: Words, o: Options, i: nat)
    requires i < |ORDER|
    ensures Plan(w, o)[i].phase == ORDER[i] && (Plan(w, o)[i].enabled <==> Opens(w, o, ORDER[i]))
  {
    ProbedAt(Gated(w, o), o.gates.harvest && !SkipsName(w, o.skips, HarvestProbe), i);
    if ORDER[i] == HarvestProbe {
      Placed(HarvestProbe);
      SendsBehindProbe(w, o);
    }
  }

  lemma RunsIffItOpens(w: Words, o: Options, id: Id)
    ensures Runs(w, o, id) <==> Opens(w, o, id)
  {
    if Runs(w, o, id) {
      var i :| 0 <= i < |Plan(w, o)| && Plan(w, o)[i].phase == id && Plan(w, o)[i].enabled;
      StepAt(w, o, i);
    }
    if Opens(w, o, id) {
      Placed(id);
      StepAt(w, o, Place(id));
    }
  }

  predicate Fetches(ids: seq<Id>) {
    Discovery in ids || Ingestion in ids
  }

  predicate Assesses(ids: seq<Id>) {
    DynamicAssessment in ids || Extension in ids
  }

  // Some named phase reaches the target behind the harvest probe.
  predicate Reaches(ids: seq<Id>) {
    exists i :: i in ids && i !in {ExternalHarvest, HeuristicsCheck, PortSweep}
  }

  // What --only wants of a step: that it is named, under either name of it, or
  // that it rides on what is named.
  predicate Wanted(o: Options, ids: seq<Id>, id: Id) {
    match id
    case HarvestProbe => ExternalHarvest in ids && Reaches(ids)
    case TargetedRespider => Spidering in ids && Fetches(ids) && !o.gates.skipRespider &&
        (Assesses(ids) || TargetedRespider in ids)
    case Seed => !Fetches(ids) && !o.asked.scanOnReceive && (KnownIssueScan in ids || Assesses(ids))
    case ParamMining => Assesses(ids) && o.asked.paramMining == Some(true)
    case Discovery => Fetches(ids)
    case DynamicAssessment => Assesses(ids)
    case Ingestion | Extension | Preflight => false
    case _ => id in ids
  }

  // What a selection with --only leaves.
  predicate Selected(w: Words, o: Options, ids: seq<Id>, after: Options) {
    && Listable(ids) && !LoneRespiderIn(ids)
    && after.only == Join(Names(w, ids), ',') && after.skips == []
    && after.gates == SelectOnly(o.gates, ids) && after.asked == o.asked
  }

  lemma OnlySelects(w: Words, o: Options)
    requires WellSpelled(w) && o.only != "" && Apply(w, o).1.None?
    ensures ParseOnly(w, o.only).Ok? && Selected(w, o, ParseOnly(w, o.only).value, Apply(w, o).0)
  {
    ParsedIsListable(w, o.only);
  }

  lemma OnlyGate(w: Words, o: Options, ids: seq<Id>, after: Options, id: Id)
    requires WellSpelled(w) && Selected(w, o, ids, after) && id != HarvestProbe
    ensures Gate(w, after, id) <==> Wanted(o, ids, id)
  {
    PrintedIsNotBlank(w, ids);
    PrintedName(w, ids, PortSweep);
    PrintedName(w, ids, TargetedRespider);
  }

  // The step of the plan a named phase turns on.
  function StepOf(id: Id): Id {
    match id
    case Ingestion => Discovery
    case Extension => DynamicAssessment
    case TargetedRespider => Spidering
    case _ => id
  }

  lemma BehindProbeIsNamed(w: Words, o: Options, ids: seq<Id>, after: Options, i: nat)
    requires WellSpelled(w) && Selected(w, o, ids, after) && 4 <= i < |ORDER| && Gate(w, after, ORDER[i])
    ensures Reaches(ids)
  {
    Placed(ORDER[i]);
    OnlyGate(w, o, ids, after, ORDER[i]);
    assert Wanted(o, ids, ORDER[i]);
  }

  lemma NamedIsOn(w: Words, o: Options, ids: seq<Id>, after: Options, id: Id)
    requires WellSpelled(w) && Selected(w, o, ids, after) && id in ids
    ensures Gate(w, after, StepOf(id)) && Place(StepOf(id)) < |ORDER|
    ensures id !in {ExternalHarvest, HeuristicsCheck, PortSweep} ==> Place(StepOf(id)) >= 4
  {
    OnlyGate(w, o, ids, after, StepOf(id));
  }

  lemma SomethingBehindProbe(w: Words, o: Options, ids: seq<Id>, after: Options)
    requires WellSpelled(w) && Selected(w, o, ids, after)
    ensures SomethingBehind(w, after) <==> Reaches(ids)
  {
    if i :| 4 <= i < |ORDER| && Gate(w, after, ORDER[i]) {
      BehindProbeIsNamed(w, o, ids, after, i);
    }
    if id :| id in ids && id !in {ExternalHarvest, HeuristicsCheck, PortSweep} {
      NamedIsOn(w, o, ids, after, id);
      Placed(StepOf(id));
    }
  }

  lemma OnlyOpens(w: Words, o: Options, ids: seq<Id>, after: Options, id: Id)
    requires WellSpelled(w) && Selected(w, o, ids, after)
    ensures Opens(w, after, id) <==> Wanted(o, ids, id)
  {
    if id == HarvestProbe {
      SomethingBehindProbe(w, o, ids, after);
    } else {
      OnlyGate(w, o, ids, after, id);
      Placed(id);
    }
  }

  // --only runs exactly what it names and what rides on that.
  lemma OnlyIsExact(w: Words, o: Options, id: Id)
    requires WellSpelled(w) && o.only != "" && Apply(w, o).1.None?
    ensures ParseOnly(w, o.only).Ok?
    ensures Runs(w, Apply(w, o).0, id) <==> Wanted(o, ParseOnly(w, o.only).value, id)
  {
    OnlySelects(w, o);
    OnlyOpens(w, o, ParseOnly(w, o.only).value, Apply(w, o).0, id);
    RunsIffItOpens(w, Apply(w, o).0, id);
  }

  // Some step but harvesting has its gate open.
  predicate SomeGate(w: Words, o: Options) {
    exists i :: 0 <= i < |ORDER| && ORDER[i] != ExternalHarvest && Gate(w, o, ORDER[i])
  }

  lemma SendsIffSomeGate(w: Words, o: Options)
    ensures Sends(Plan(w, o)) <==> SomeGate(w, o)
  {
    var steps := Gated(w, o);
    ProbingKeepsSilence(steps, o.gates.harvest && !SkipsName(w, o.skips, HarvestProbe));
    if Sends(steps) {
      var i :| 0 <= i < |steps| && steps[i].enabled && !steps[i].skipsTarget;
      assert Gate(w, o, ORDER[i]);
    }
    if i :| 0 <= i < |ORDER| && ORDER[i] != ExternalHarvest && Gate(w, o, ORDER[i]) {
      assert steps[i].enabled;
    }
  }

  lemma HarvestOpensNothingElse(w: Words, o: Options, ids: seq<Id>, after: Options, id: Id)
    requires WellSpelled(w) && Selected(w, o, ids, after) && id != ExternalHarvest
    requires forall i :: i in ids ==> i == ExternalHarvest
    ensures !Gate(w, after, id)
  {
    if id != HarvestProbe { OnlyGate(w, o, ids, after, id); }
  }

  lemma SomeGateIffNamed(w: Words, o: Options, ids: seq<Id>, after: Options)
    requires WellSpelled(w) && Selected(w, o, ids, after)
    ensures SomeGate(w, after) <==> exists id :: id in ids && id != ExternalHarvest
  {
    if id :| id in ids && id != ExternalHarvest {
      NamedIsOn(w, o, ids, after, id);
      Placed(StepOf(id));
    } else {
      forall id | id != ExternalHarvest ensures !Gate(w, after, id) {
        HarvestOpensNothingElse(w, o, ids, after, id);
      }
    }
  }

  // A run narrowed to harvesting is the only one that never contacts the target.
  lemma OnlyHarvestingIsSilent(w: Words, o: Options)
    requires WellSpelled(w) && o.only != "" && Apply(w, o).1.None?
    ensures ParseOnly(w, o.only).Ok?
    ensures Sends(Plan(w, Apply(w, o).0)) <==> exists id :: id in ParseOnly(w, o.only).value && id != ExternalHarvest
  {
    OnlySelects(w, o);
    SendsIffSomeGate(w, Apply(w, o).0);
    SomeGateIffNamed(w, o, ParseOnly(w, o.only).value, Apply(w, o).0);
  }

  lemma OnlyProbeNamed(w: Words)
    requires WellSpelled(w)
    ensures OnlyNames(w, Join(Names(w, [Probe]), ',')) == {w.name(Probe)}
  {
    ParseOfPrinted(w, [Probe]);
    PrintedIsNotBlank(w, [Probe]);
    assert Names(w, [Probe]) == [w.name(Probe)];
    assert Sound(w, Probe);
  }

  lemma SameNameAs(w: Words, id: Id, names: set<string>)
    requires WellSpelled(w) && names == {w.name(Probe)} && w.name(id) in names
    ensures id == Probe
  {
    SameName(w, id, Probe);
  }

  // The printed list names the probe alone exactly when it is the only entry.
  lemma ProbeAlone(w: Words, ids: seq<Id>)
    requires WellSpelled(w) && Listable(ids)
    ensures OnlyNames(w, Join(Names(w, ids), ',')) == {w.name(Probe)} <==> ids == [Probe]
  {
    var names := OnlyNames(w, Join(Names(w, ids), ','));
    assert ids[0] in ids && (|ids| > 1 ==> ids[1] in ids && ids[0] != ids[1]);
    forall id ensures w.name(id) in names <==> id in ids { PrintedName(w, ids, id); }
    if names == {w.name(Probe)} {
      forall id | id in ids ensures id == Probe { SameNameAs(w, id, names); }
    }
    if ids == [Probe] {
      OnlyProbeNamed(w);
    }
  }

  // The sweep policy is touched only for a run of the probe alone, and there only
  // where nothing was asked for.
  lemma SweepPolicy(w: Words, o: Options)
    requires WellSpelled(w) && o.only != "" && Apply(w, o).1.None?
    ensures ParseOnly(w, o.only).Ok?
    ensures var s, t := o.sweep, Apply(w, o).0.sweep;
      if ParseOnly(w, o.only).value != [Probe] then t == s
      else
        && (if s.recordSet then t.record == s.record else t.record) &&
           (if s.pacingSet then t.noPacing == s.noPacing else t.noPacing)
        && t.redirect == (if s.redirect == "" then SAME_APEX else s.redirect)
        && t.transport == (if s.transport == "" then SWEEP_TRANSPORT else s.transport)
  {
    var ids := ParseOnly(w, o.only).value;
    OnlySelects(w, o);
    ProbeAlone(w, ids);
  }

  lemma InVocabulary(id: Id)
    ensures id in VOCABULARY
  {
    assert VOCABULARY[0] == Ingestion;
  }

  // What --only records of a phase it can name.
  lemma OnlyRecords(w: Words, o: Options, id: Id)
    requires WellSpelled(w) && o.only != "" && Apply(w, o).1.None? && id in VOCABULARY
    ensures ParseOnly(w, o.only).Ok?
    ensures var ids, notes := ParseOnly(w, o.only).value, Apply(w, o).0.notes;
      && (id in notes <==> NoteAfter(o.notes, ids, id).Some?)
      && (id in notes ==> notes[id] == NoteAfter(o.notes, ids, id).value)
  {
  }

  // After --only, a phase it can name is recorded as left out exactly when the
  // plan does not run it.
  lemma LeftOutIsRecordedIff(w: Words, o: Options, id: Id)
    requires WellSpelled(w) && o.only != "" && Apply(w, o).1.None?
    requires !Internal(id) && id != TargetedRespider && id != Ingestion && id != Extension
    ensures Runs(w, Apply(w, o).0, id) <==> id !in Apply(w, o).0.notes
    ensures id in Apply(w, o).0.notes ==> Apply(w, o).0.notes[id] == ByOnly
  {
    InVocabulary(id);
    OnlyRecords(w, o, id);
    OnlyIsExact(w, o, id);
  }

  // ------------------------------------------------- --skip

  // Some entry names the phase.
  predicate Skips(w: Words, phases: seq<string>, id: Id)
    decreases |phases|
  {
    phases != [] && (Lookup(w, phases[0]) == Some(id) || Skips(w, phases[1..], id))
  }

  predicate PhasesOff(w: Words, g: Gates, phases: seq<string>, n: Gates) {
    && (n.harvest <==> g.harvest && !Skips(w, phases, ExternalHarvest))
    && (n.spider <==> g.spider && !Skips(w, phases, Spidering))
    && (n.issues <==> g.issues && !Skips(w, phases, KnownIssueScan))
    && (n.probe <==> g.probe && !Skips(w, phases, Probe))
    && (n.fingerprint <==> g.fingerprint && !Skips(w, phases, Fingerprint))
  }

  predicate SwitchedOff(w: Words, g: Gates, phases: seq<string>, n: Gates) {
    && PhasesOff(w, g, phases, n)
    && n.heuristics == (if Skips(w, phases, HeuristicsCheck) then Off else g.heuristics)
    && n.extensions == (if Skips(w, phases, Extension) then Some(false) else g.extensions)
  }

  predicate Refused(w: Words, g: Gates, phases: seq<string>, n: Gates) {
    && (n.skipIngestion <==> g.skipIngestion || Skips(w, phases, Discovery) || Skips(w, phases, Ingestion))
    && (n.skipAssessment <==> g.skipAssessment || Skips(w, phases, DynamicAssessment))
    && (n.skipPortSweep <==> g.skipPortSweep || Skips(w, phases, PortSweep))
    && (n.skipRespider <==> g.skipRespider || Skips(w, phases, TargetedRespider))
    && (n.skipPreflight <==> g.skipPreflight || Skips(w, phases, Preflight))
  }

  // The switches with the phases of the list turned off.
  predicate Without(w: Words, g: Gates, phases: seq<string>, n: Gates) {
    SwitchedOff(w, g, phases, n) && Refused(w, g, phases, n)
  }

  // Turning off one phase, switch by switch.
  function Masked(g: Gates, id: Id): Gates {
    Gates(
      g.discover && id != Discovery && id != Ingestion, g.harvest && id != ExternalHarvest, g.spider && id != Spidering,
      g.issues && id != KnownIssueScan, g.probe && id != Probe, g.fingerprint && id != Fingerprint,
      g.skipIngestion || id == Discovery || id == Ingestion, g.skipAssessment || id == DynamicAssessment,
      g.extensionsOnly && id != Extension, g.skipPortSweep || id == PortSweep, g.skipRespider || id == TargetedRespider,
      g.skipPreflight || id == Preflight,
      if id == HeuristicsCheck then Off else g.heuristics, if id == Extension then Some(false) else g.extensions)
  }

  lemma SkippingFindsNothing(g: Gates, id: Id)
    requires id in {Discovery, Ingestion, ExternalHarvest, Spidering, KnownIssueScan, Probe, Fingerprint}
    ensures SkipGate(g, id) == Masked(g, id)
  {
  }

  lemma SkippingRefuses(g: Gates, id: Id)
    requires id in {DynamicAssessment, PortSweep, TargetedRespider, Preflight}
    ensures SkipGate(g, id) == Masked(g, id)
  {
  }

  lemma SkippingIsMasking(g: Gates, id: Id)
    ensures SkipGate(g, id) == Masked(g, id)
  {
    match id
    case Discovery | Ingestion | ExternalHarvest | Spidering => SkippingFindsNothing(g, id);
    case KnownIssueScan | Probe | Fingerprint => SkippingFindsNothing(g, id);
    case DynamicAssessment | PortSweep | TargetedRespider | Preflight => SkippingRefuses(g, id);
    case _ =>
  }

  lemma PhasesOffOneMore(w: Words, g: Gates, phases: seq<string>, n: Gates)
    requires phases != [] && Lookup(w, phases[0]).Some?
    requires PhasesOff(w, Masked(g, Lookup(w, phases[0]).value), phases[1..], n)
    ensures PhasesOff(w, g, phases, n)
  {
  }

  lemma SwitchedOffOneMore(w: Words, g: Gates, phases: seq<string>, n: Gates)
    requires phases != [] && Lookup(w, phases[0]).Some?
    requires SwitchedOff(w, Masked(g, Lookup(w, phases[0]).value), phases[1..], n)
    ensures SwitchedOff(w, g, phases, n)
  {
    PhasesOffOneMore(w, g, phases, n);
  }

  lemma RefusedOneMore(w: Words, g: Gates, phases: seq<string>, n: Gates)
    requires phases != [] && Lookup(w, phases[0]).Some?
    requires Refused(w, Masked(g, Lookup(w, phases[0]).value), phases[1..], n)
    ensures Refused(w, g, phases, n)
  {
  }

  lemma {:induction false} SkippingIsWithout(w: Words, g: Gates, notes: map<Id, Reason>, phases: seq<string>)
    requires SkipAll(w, g, notes, phases).refusal.None?
    ensures Without(w, g, phases, SkipAll(w, g, notes, phases).gates)
    decreases |phases|
  {
    if phases != [] {
      var id := Lookup(w, phases[0]).value;
      SkippingIsMasking(g, id);
      SkippingIsWithout(w, SkipGate(g, id), NoteSkipped(notes, id), phases[1..]);
      SwitchedOffOneMore(w, g, phases, SkipAll(w, g, notes, phases).gates);
      RefusedOneMore(w, g, phases, SkipAll(w, g, notes, phases).gates);
    }
  }

  // What --skip leaves of a step: its gate before, and neither it nor what it
  // rides on skipped. Seeding alone can come on: it stands in for the ingestion.
  predicate Left(w: Words, o: Options, id: Id) {
    match id
    case Discovery => Gate(w, o, id) && !Skips(w, o.skips, Discovery) && !Skips(w, o.skips, Ingestion)
    case TargetedRespider =>
      && Gate(w, o, id) && !Skips(w, o.skips, TargetedRespider) && !Skips(w, o.skips, Spidering)
      && !Skips(w, o.skips, Discovery) && !Skips(w, o.skips, Ingestion) && !Skips(w, o.skips, DynamicAssessment)
    case ParamMining => Gate(w, o, id) && !Skips(w, o.skips, DynamicAssessment)
    case Seed =>
      && (o.gates.skipIngestion || Skips(w, o.skips, Discovery) || Skips(w, o.skips, Ingestion)) &&
         !o.asked.scanOnReceive
      && ((o.gates.issues && !Skips(w, o.skips, KnownIssueScan))
         || (!o.gates.skipAssessment && !Skips(w, o.skips, DynamicAssessment)))
    case _ => Gate(w, o, id) && !Skips(w, o.skips, id)
  }

  lemma {:induction false} SkipsSame(w: Words, phases: seq<string>, n: seq<string>, id: Id)
    requires |n| == |phases| && forall i :: 0 <= i < |phases| ==> Lookup(w, n[i]) == Lookup(w, phases[i])
    ensures Skips(w, n, id) <==> Skips(w, phases, id)
    decreases |phases|
  {
    if phases != [] { SkipsSame(w, phases[1..], n[1..], id); }
  }

  // Only a spelling of a phase is normalized to its name.
  lemma CleanNames(w: Words, s: string, id: Id)
    requires WellSpelled(w) && Normalize(w, s) == w.name(id)
    ensures Lookup(w, s) == Some(id)
  {
    assert Sound(w, id);
    NormalizeStays(w, s);
  }

  lemma {:induction false} SkipsIffNamed(w: Words, skips: seq<string>, id: Id)
    requires WellSpelled(w)
    ensures SkipsName(w, skips, id) <==> Skips(w, skips, id)
    decreases |skips|
  {
    if skips != [] {
      SkipsIffNamed(w, skips[1..], id);
      assert Sound(w, id);
      if Lookup(w, skips[0]).Some? { assert Sound(w, Lookup(w, skips[0]).value); }
      if i :| 0 <= i < |skips| && Normalize(w, skips[i]) == w.name(id) {
        if i > 0 { assert skips[1..][i - 1] == skips[i]; }
        if i == 0 { CleanNames(w, skips[0], id); }
      }
      if i :| 0 <= i < |skips[1..]| && Normalize(w, skips[1..][i]) == w.name(id) {
        assert skips[i + 1] == skips[1..][i];
      }
    }
  }

  lemma NormalizedSkips(w: Words, skips: seq<string>, id: Id)
    requires WellSpelled(w)
    ensures Skips(w, Map(skips, s => Normalize(w, s)), id) <==> Skips(w, skips, id)
  {
    var n := Map(skips, s => Normalize(w, s));
    forall i | 0 <= i < |skips| ensures Lookup(w, n[i]) == Lookup(w, skips[i]) { NormalizeStays(w, skips[i]); }
    SkipsSame(w, skips, n, id);
  }

  lemma GateIsLeft(w: Words, o: Options, after: Options, id: Id)
    requires o.only == after.only == "" && after.asked == o.asked && Without(w, o.gates, o.skips, after.gates)
    requires SkipsName(w, after.skips, ParamMining) <==> SkipsName(w, o.skips, ParamMining)
    ensures Gate(w, after, id) <==> Left(w, o, id)
  {
  }

  lemma SkipGates(w: Words, o: Options, id: Id)
    requires WellSpelled(w) && o.only == "" && Apply(w, o).1.None?
    ensures Gate(w, Apply(w, o).0, id) <==> Left(w, o, id)
  {
    var after := Apply(w, o).0;
    forall other ensures Skips(w, after.skips, other) <==> Skips(w, o.skips, other) {
      NormalizedSkips(w, o.skips, other);
    }
    SkippingIsWithout(w, o.gates, o.notes, after.skips);
    SkipsIffNamed(w, o.skips, ParamMining);
    SkipsIffNamed(w, after.skips, ParamMining);
    GateIsLeft(w, o, after, id);
  }

  predicate SomethingLeftBehind(w: Words, o: Options) {
    exists i :: 4 <= i < |ORDER| && Left(w, o, ORDER[i])
  }

  lemma LeftBehind(w: Words, o: Options)
    requires WellSpelled(w) && o.only == "" && Apply(w, o).1.None?
    ensures SomethingBehind(w, Apply(w, o).0) <==> SomethingLeftBehind(w, o)
  {
    forall i | 4 <= i < |ORDER| ensures Gate(w, Apply(w, o).0, ORDER[i]) <==> Left(w, o, ORDER[i]) {
      SkipGates(w, o, ORDER[i]);
    }
  }

  // What --skip leaves running: what is left open, and the harvest probe when
  // harvesting and something behind it are.
  predicate Stays(w: Words, o: Options, id: Id) {
    if id == HarvestProbe then
      Left(w, o, ExternalHarvest) && !Skips(w, o.skips, HarvestProbe) && SomethingLeftBehind(w, o)
    else id in ORDER && Left(w, o, id)
  }

  // --skip leaves exactly the steps whose gate was open and that neither are
  // skipped nor ride on a skipped one.
  lemma SkipIsExact(w: Words, o: Options, id: Id)
    requires WellSpelled(w) && o.only == "" && Apply(w, o).1.None?
    ensures Runs(w, Apply(w, o).0, id) <==> Stays(w, o, id)
  {
    RunsIffItOpens(w, Apply(w, o).0, id);
    SkipGates(w, o, id);
    if id == HarvestProbe {
      SkipGates(w, o, ExternalHarvest);
      LeftBehind(w, o);
      SkipsIffNamed(w, Apply(w, o).0.skips, HarvestProbe);
      NormalizedSkips(w, o.skips, HarvestProbe);
    }
  }

  lemma LeftWasOpen(w: Words, o: Options, id: Id)
    requires id != Seed && Left(w, o, id)
    ensures Gate(w, o, id)
  {
  }

  lemma LeftWasBehind(w: Words, o: Options)
    requires SomethingLeftBehind(w, o)
    ensures SomethingBehind(w, o)
  {
    var i :| 4 <= i < |ORDER| && Left(w, o, ORDER[i]);
    if ORDER[i] == Seed {
      Placed(DynamicAssessment);
      Placed(KnownIssueScan);
      assert Gate(w, o, ORDER[11]) || Gate(w, o, ORDER[12]);
    } else {
      LeftWasOpen(w, o, ORDER[i]);
    }
  }

  lemma WhatStaysWasOpen(w: Words, o: Options, id: Id)
    requires WellSpelled(w) && id != Seed && Stays(w, o, id)
    ensures Opens(w, o, id)
  {
    if id == HarvestProbe {
      SkipsIffNamed(w, o.skips, HarvestProbe);
      LeftWasBehind(w, o);
    } else {
      LeftWasOpen(w, o, id);
    }
  }

  // --skip turns on nothing but the seeding that stands in for the ingestion.
  lemma SkipTurnsNothingOn(w: Words, o: Options, id: Id)
    requires WellSpelled(w) && o.only == "" && Apply(w, o).1.None?
    requires id != Seed && Runs(w, Apply(w, o).0, id)
    ensures Runs(w, o, id)
  {
    SkipIsExact(w, o, id);
    WhatStaysWasOpen(w, o, id);
    RunsIffItOpens(w, o, id);
  }

  // --skip records every phase it names, over any record but that of an empty
  // module selection, and touches no other record.
  lemma {:induction false} SkippedIsRecorded(w: Words, g: Gates, notes: map<Id, Reason>, phases: seq<string>, id: Id)
    requires SkipAll(w, g, notes, phases).refusal.None?
    ensures var after := SkipAll(w, g, notes, phases).notes;
      if !Skips(w, phases, id) then (id in after <==> id in notes) && (id in notes ==> after[id] == notes[id])
      else id in after && after[id] == if id in notes && notes[id] == ByModuleSelection then ByModuleSelection
        else BySkip
    decreases |phases|
  {
    if phases != [] {
      var next := Lookup(w, phases[0]).value;
      SkippedIsRecorded(w, SkipGate(g, next), NoteSkipped(notes, next), phases[1..], id);
    }
  }
}
