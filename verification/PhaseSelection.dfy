/**
  Resolving --only and --skip onto the options of a scan.
*/
module PhaseSelection {
  import opened Common
  import opened Texts

  datatype Id =
    | Ingestion | Probe | Fingerprint | Discovery | ExternalHarvest | Spidering | KnownIssueScan | DynamicAssessment
    | Extension | HeuristicsCheck | PortSweep | HarvestProbe | TargetedRespider | ParamMining | Seed | Preflight

  const VOCABULARY: seq<Id> := [
    Ingestion, Probe, Fingerprint, Discovery, ExternalHarvest, Spidering, KnownIssueScan, DynamicAssessment,
    Extension, HeuristicsCheck, PortSweep, HarvestProbe, TargetedRespider, ParamMining, Seed, Preflight
  ]

  // The spellings: trimming, trimming and lower-casing, and the alias table.
  datatype Words = Words(trim: string -> string, clean: string -> string, index: string -> Option<Id>,
      name: Id -> string)

  // Canonical names are in the table and survive being listed with commas.
  predicate Sound(w: Words, id: Id) {
    var n := w.name(id);
    w.trim(n) == n && w.clean(n) == n && w.index(n) == Some(id) && n != "" && ',' !in n
  }

  // Cleaning what is clean changes nothing.
  predicate Clean(w: Words, s: string) {
    w.clean(w.clean(s)) == w.clean(s)
  }

  ghost predicate WellSpelled(w: Words) {
    (forall id :: Sound(w, id)) && forall s :: Clean(w, s)
  }

  function Normalize(w: Words, s: string): string {
    match w.index(w.clean(s))
    case Some(id) => w.name(id)
    case None => w.clean(s)
  }

  function Lookup(w: Words, s: string): Option<Id> {
    w.index(w.clean(s))
  }

  lemma NormalizeStays(w: Words, s: string)
    requires WellSpelled(w)
    ensures Normalize(w, Normalize(w, s)) == Normalize(w, s) && Lookup(w, Normalize(w, s)) == Lookup(w, s)
  {
    if Lookup(w, s).Some? { assert Sound(w, Lookup(w, s).value); }
    assert Clean(w, s);
  }

  // Phases the plan schedules on their own gates; --only never names them.
  predicate Internal(id: Id) {
    id in {HarvestProbe, ParamMining, Seed, Preflight}
  }

  predicate Skippable(id: Id) {
    id != Seed
  }

  datatype Level = Blank | Off | Basic | Chosen(text: string)

  datatype Reason = ByOnly | BySkip | ByModuleSelection

  // The switches of a scan.
  datatype Gates = Gates(
    discover: bool, harvest: bool, spider: bool, issues: bool, probe: bool, fingerprint: bool,
    skipIngestion: bool, skipAssessment: bool, extensionsOnly: bool, skipPortSweep: bool, skipRespider: bool,
      skipPreflight: bool,
    heuristics: Level, extensions: Option<bool>)

  // What the command line asks for beside the switches.
  datatype Asked = Asked(paramMining: Option<bool>, deep: bool, followSubdomains: bool, scanOnReceive: bool)

  datatype Sweep = Sweep(recordSet: bool, record: bool, redirect: string, transport: string, pacingSet: bool,
      noPacing: bool)

  datatype Options = Options(only: string, skips: seq<string>, gates: Gates, notes: map<Id, Reason>, sweep: Sweep,
      asked: Asked)

  datatype Refusal = BothGiven | BadOnly(text: string) | EmptyOnly | LoneRespider | BadSkip(text: string)

  // ------------------------------------------------- --only

  // The phases a list of entries names, each once, in order of first mention.
  function Parse(w: Words, parts: seq<string>): (r: Result<seq<Id>, Refusal>)
    ensures r.Ok? ==> forall id :: id in r.value ==> !Internal(id)
  {
    if parts == [] then Ok([])
    else
      match Parse(w, parts[..|parts| - 1])
      case Err(e) => Err(e)
      case Ok(before) =>
        var p := w.trim(parts[|parts| - 1]);
        if p == "" then Ok(before)
        else if Lookup(w, p).None? || Internal(Lookup(w, p).value) then Err(BadOnly(p))
        else if Lookup(w, p).value in before then Ok(before)
        else Ok(before + [Lookup(w, p).value])
  }

  function ParseOnly(w: Words, raw: string): Result<seq<Id>, Refusal> {
    match Parse(w, Split(raw, ','))
    case Err(e) => Err(e)
    case Ok(ids) => if ids == [] then Err(EmptyOnly) else Ok(ids)
  }

  function Names(w: Words, ids: seq<Id>): seq<string> {
    Map(ids, w.name)
  }

  // A bad entry decides the whole list.
  lemma {:induction false} ParseStops(w: Words, parts: seq<string>, i: nat)
    requires i <= |parts| && Parse(w, parts[..i]).Err?
    ensures Parse(w, parts) == Parse(w, parts[..i])
    decreases |parts|
  {
    if i < |parts| {
      var init := parts[..|parts| - 1];
      assert init[..i] == parts[..i];
      ParseStops(w, init, i);
    } else {
      assert parts[..i] == parts;
    }
  }

  method ParseOnlyPhases(w: Words, raw: string) returns (r: Result<seq<Id>, Refusal>)
    requires WellSpelled(w)
    ensures r == ParseOnly(w, raw)
  {
    var parts := Split(raw, ',');
    var allowed: set<Id>, normalized := {}, [];
    for i := 0 to |parts|
      invariant Parse(w, parts[..i]) == Ok(normalized)
      invariant forall id :: id in allowed <==> id in normalized
    {
      assert parts[..i + 1][..i] == parts[..i];
      var p := w.trim(parts[i]);
      if p != "" {
        var n := Normalize(w, p);
        NormalizeStays(w, p);
        var found := Lookup(w, n);
        if found.None? || Internal(found.value) {
          ParseStops(w, parts, i + 1);
          return Err(BadOnly(p));
        }
        if found.value !in allowed {
          allowed, normalized := allowed + {found.value}, normalized + [found.value];
        }
      }
    }
    assert parts[..|parts|] == parts;
    r := if |allowed| == 0 then Err(EmptyOnly) else Ok(normalized);
    if normalized != [] { assert normalized[0] in allowed; }
  }

  lemma {:induction false} ParseNames(w: Words, ids: seq<Id>)
    requires WellSpelled(w) && forall id :: id in ids ==> !Internal(id)
    requires forall i, j :: 0 <= i < j < |ids| ==> ids[i] != ids[j]
    ensures Parse(w, Names(w, ids)) == Ok(ids)
  {
    if ids != [] {
      var init, last := ids[..|ids| - 1], ids[|ids| - 1];
      ParseNames(w, init);
      assert Names(w, ids)[..|ids| - 1] == Names(w, init);
      assert Sound(w, last);
      assert ids == init + [last];
    }
  }

  // A list printed under its canonical names parses to itself.
  lemma ParseOfPrinted(w: Words, ids: seq<Id>)
    requires WellSpelled(w) && ids != [] && forall id :: id in ids ==> !Internal(id)
    requires forall i, j :: 0 <= i < j < |ids| ==> ids[i] != ids[j]
    ensures ParseOnly(w, Join(Names(w, ids), ',')) == Ok(ids)
    ensures Split(Join(Names(w, ids), ','), ',') == Names(w, ids)
  {
    forall i | 0 <= i < |ids| ensures ',' !in Names(w, ids)[i] { assert Sound(w, ids[i]); }
    SplitOfJoin(Names(w, ids), ',');
    ParseNames(w, ids);
  }

  lemma {:induction false} ParseIsDistinct(w: Words, parts: seq<string>)
    requires Parse(w, parts).Ok?
    ensures var ids := Parse(w, parts).value; forall i, j :: 0 <= i < j < |ids| ==> ids[i] != ids[j]
  {
    if parts != [] { ParseIsDistinct(w, parts[..|parts| - 1]); }
  }

  // Printing what was parsed and parsing it again changes nothing.
  lemma ParsePrintParse(w: Words, raw: string)
    requires WellSpelled(w) && ParseOnly(w, raw).Ok?
    ensures ParseOnly(w, Join(Names(w, ParseOnly(w, raw).value), ',')) == ParseOnly(w, raw)
  {
    ParseIsDistinct(w, Split(raw, ','));
    ParseOfPrinted(w, ParseOnly(w, raw).value);
  }

  // The canonical names listed in an --only value.
  function OnlyNames(w: Words, raw: string): set<string> {
    if raw == "" then {} else set p | p in Split(raw, ',') && w.trim(p) != "" :: Normalize(w, w.trim(p))
  }

  predicate Listable(ids: seq<Id>) {
    && ids != [] && (forall i :: i in ids ==> !Internal(i))
    && forall i, j :: 0 <= i < j < |ids| ==> ids[i] != ids[j]
  }

  lemma PrintedIsNotBlank(w: Words, ids: seq<Id>)
    requires WellSpelled(w) && Listable(ids)
    ensures Join(Names(w, ids), ',') != ""
  {
    assert Sound(w, ids[0]) && Names(w, ids)[0] == w.name(ids[0]);
  }

  lemma SameName(w: Words, a: Id, b: Id)
    requires WellSpelled(w) && w.name(a) == w.name(b)
    ensures a == b
  {
    assert Sound(w, a) && Sound(w, b);
  }

  // A printed list names exactly the phases in it.
  lemma PrintedName(w: Words, ids: seq<Id>, id: Id)
    requires WellSpelled(w) && Listable(ids)
    ensures w.name(id) in OnlyNames(w, Join(Names(w, ids), ',')) <==> id in ids
  {
    var raw := Join(Names(w, ids), ',');
    PrintedIsNotBlank(w, ids);
    ParseOfPrinted(w, ids);
    if w.name(id) in OnlyNames(w, raw) {
      var p :| p in Split(raw, ',') && w.trim(p) != "" && Normalize(w, w.trim(p)) == w.name(id);
      var k :| 0 <= k < |ids| && Names(w, ids)[k] == p;
      assert Sound(w, ids[k]);
      SameName(w, ids[k], id);
    }
    if id in ids {
      var k :| 0 <= k < |ids| && ids[k] == id;
      assert Names(w, ids)[k] in Names(w, ids) && Sound(w, id);
    }
  }

  function EnabledBy(ids: seq<Id>, id: Id): bool {
    match id
    case Discovery => Discovery in ids || Ingestion in ids
    case DynamicAssessment => DynamicAssessment in ids || Extension in ids
    case _ => id in ids
  }

  // What --only leaves recorded about one phase.
  function NoteAfter(notes: map<Id, Reason>, ids: seq<Id>, id: Id): Option<Reason> {
    var before := if id in notes then Some(notes[id]) else None;
    if Internal(id) || (id == TargetedRespider && id !in ids) then before
    else if EnabledBy(ids, id) then None
    else Some(ByOnly)
  }

  function NotesAfter(notes: map<Id, Reason>, ids: seq<Id>, done: seq<Id>): map<Id, Reason> {
    map id | id in notes.Keys + (set i | i in done) && (id in done ==> NoteAfter(notes, ids, id).Some?) ::
      if id in done then NoteAfter(notes, ids, id).value else notes[id]
  }

  function SelectOnly(g: Gates, ids: seq<Id>): Gates {
    Gates(
      Discovery in ids, ExternalHarvest in ids, Spidering in ids, KnownIssueScan in ids, Probe in ids,
        Fingerprint in ids,
      Discovery !in ids && Ingestion !in ids,
      DynamicAssessment !in ids && Extension !in ids,
      if Extension in ids then DynamicAssessment !in ids else g.extensionsOnly,
      PortSweep !in ids, g.skipRespider, g.skipPreflight,
      if HeuristicsCheck !in ids then Off else if g.heuristics in {Blank, Off} then Basic else g.heuristics,
      if Extension in ids then Some(true) else g.extensions)
  }

  predicate LoneRespiderIn(ids: seq<Id>) {
    TargetedRespider in ids && !(Spidering in ids && (Discovery in ids || Ingestion in ids))
  }

  // ------------------------------------------------- the sweep defaults

  predicate ProbeOnly(w: Words, only: string, g: Gates) {
    g.probe && OnlyNames(w, only) == {w.name(Probe)}
  }

  const SAME_APEX := "same-apex"
  const SWEEP_TRANSPORT := "sweep"

  // Every default applies only where nothing was asked for.
  function SweepDefaults(w: Words, only: string, g: Gates, s: Sweep): Sweep {
    if !ProbeOnly(w, only, g) then s
    else Sweep(s.recordSet, s.record || !s.recordSet, if s.redirect == "" then SAME_APEX else s.redirect,
               if s.transport == "" then SWEEP_TRANSPORT else s.transport, s.pacingSet, s.noPacing || !s.pacingSet)
  }

  // ------------------------------------------------- --skip

  function NoteSkipped(notes: map<Id, Reason>, id: Id): map<Id, Reason> {
    if id in notes && notes[id] == ByModuleSelection then notes else notes[id := BySkip]
  }

  function SkipGate(g: Gates, id: Id): Gates {
    match id
    case Discovery | Ingestion => g.(skipIngestion := true, discover := false)
    case ExternalHarvest => g.(harvest := false)
    case Spidering => g.(spider := false)
    case Probe => g.(probe := false)
    case Fingerprint => g.(fingerprint := false)
    case KnownIssueScan => g.(issues := false)
    case DynamicAssessment => g.(skipAssessment := true)
    case Extension => g.(extensionsOnly := false, extensions := Some(false))
    case HeuristicsCheck => g.(heuristics := Off)
    case PortSweep => g.(skipPortSweep := true)
    case TargetedRespider => g.(skipRespider := true)
    case Preflight => g.(skipPreflight := true)
    case HarvestProbe | ParamMining | Seed => g
  }

  datatype Skipped = Skipped(gates: Gates, notes: map<Id, Reason>, refusal: Option<Refusal>)

  // After every entry up to the first one that names no skippable phase.
  function SkipAll(w: Words, g: Gates, notes: map<Id, Reason>, phases: seq<string>): Skipped
    decreases |phases|
  {
    if phases == [] then Skipped(g, notes, None)
    else
      match Lookup(w, phases[0])
      case None => Skipped(g, notes, Some(BadSkip(phases[0])))
      case Some(id) =>
        if !Skippable(id) then Skipped(g, notes, Some(BadSkip(phases[0])))
        else SkipAll(w, SkipGate(g, id), NoteSkipped(notes, id), phases[1..])
  }

  // ------------------------------------------------- the whole selection

  function Apply(w: Words, o: Options): (Options, Option<Refusal>) {
    if o.only != "" && o.skips != [] then (o, Some(BothGiven))
    else
      var skips := Map(o.skips, s => Normalize(w, s));
      if o.only == "" then
        var after := SkipAll(w, o.gates, o.notes, skips);
        (Options(o.only, skips, after.gates, after.notes, SweepDefaults(w, o.only, o.gates, o.sweep), o.asked),
          after.refusal)
      else
        match ParseOnly(w, o.only)
        case Err(e) => (o.(skips := skips), Some(e))
        case Ok(ids) =>
          var only := Join(Names(w, ids), ',');
          if LoneRespiderIn(ids) then (o.(skips := skips, only := only), Some(LoneRespider))
          else
            var gates := SelectOnly(o.gates, ids);
            (Options(only, skips, gates, NotesAfter(o.notes, ids, VOCABULARY), SweepDefaults(w, only, gates, o.sweep),
              o.asked), None)
  }

  lemma NoneTwice(i: nat)
    requires i < |VOCABULARY|
    ensures VOCABULARY[i] !in VOCABULARY[..i]
  {
    assert forall a, b :: 0 <= a < b < |VOCABULARY| ==> VOCABULARY[a] != VOCABULARY[b];
  }

  lemma NoteOne(notes: map<Id, Reason>, ids: seq<Id>, done: seq<Id>, id: Id)
    requires id !in done
    ensures var before := NotesAfter(notes, ids, done);
      NotesAfter(notes, ids, done + [id])
      == if Internal(id) || (id == TargetedRespider && id !in ids) then before
         else if EnabledBy(ids, id) then before - {id}
         else before[id := ByOnly]
  {
  }

  class Launch {
    var only: string
    var skips: seq<string>
    var gates: Gates
    var notes: map<Id, Reason>
    var sweep: Sweep
    const asked: Asked

    ghost function Opts(): Options
      reads this
    {
      Options(only, skips, gates, notes, sweep, asked)
    }

    constructor (o: Options)
      ensures Opts() == o
    {
      only, skips, gates, notes, sweep, asked := o.only, o.skips, o.gates, o.notes, o.sweep, o.asked;
    }

    // Records, for every phase --only can name, whether it left it out.
    method NoteOnlySelection(ids: seq<Id>)
      modifies this`notes
      ensures notes == NotesAfter(old(notes), ids, VOCABULARY)
    {
      assert NotesAfter(old(notes), ids, []) == notes;
      for i := 0 to |VOCABULARY|
        invariant notes == NotesAfter(old(notes), ids, VOCABULARY[..i])
      {
        var id := VOCABULARY[i];
        assert VOCABULARY[..i + 1] == VOCABULARY[..i] + [id];
        NoneTwice(i);
        NoteOne(old(notes), ids, VOCABULARY[..i], id);
        if !Internal(id) && !(id == TargetedRespider && id !in ids) {
          if EnabledBy(ids, id) {
            notes := notes - {id};
          } else {
            notes := notes[id := ByOnly];
          }
        }
      }
      assert VOCABULARY[..|VOCABULARY|] == VOCABULARY;
    }

    method ApplySelection(w: Words) returns (r: Option<Refusal>)
      requires WellSpelled(w)
      modifies this
      ensures (Opts(), r) == Apply(w, old(Opts()))
    {
      if only != "" && |skips| > 0 {
        return Some(BothGiven);
      }
      NormalizeSkips(w);
      if only != "" {
        var parsed := ParseOnlyPhases(w, only);
        if parsed.Err? { return Some(parsed.error); }
        var ids := parsed.value;
        only := Join(Names(w, ids), ',');
        if LoneRespiderIn(ids) { return Some(LoneRespider); }
        gates := SelectOnly(gates, ids);
        NoteOnlySelection(ids);
      }
      sweep := SweepDefaults(w, only, gates, sweep);
      r := SkipNamed(w);
    }

    method NormalizeSkips(w: Words)
      modifies this`skips
      ensures skips == Map(old(skips), s => Normalize(w, s))
    {
      for i := 0 to |skips|
        invariant |skips| == |old(skips)|
        invariant forall k :: 0 <= k < |skips| ==> skips[k] == if k < i then Normalize(w, old(skips)[k])
          else old(skips)[k]
      {
        skips := skips[i := Normalize(w, skips[i])];
      }
      assert skips == Map(old(skips), s => Normalize(w, s));
    }

    method SkipNamed(w: Words) returns (r: Option<Refusal>)
      modifies this`gates, this`notes
      ensures Skipped(gates, notes, r) == SkipAll(w, old(gates), old(notes), skips)
    {
      for i := 0 to |skips|
        invariant SkipAll(w, old(gates), old(notes), skips) == SkipAll(w, gates, notes, skips[i..])
      {
        var id := Lookup(w, skips[i]);
        if id.None? || !Skippable(id.value) {
          return Some(BadSkip(skips[i]));
        }
        gates, notes := SkipGate(gates, id.value), NoteSkipped(notes, id.value);
        assert skips[i..][1..] == skips[i + 1..];
      }
      r := None;
    }
  }
}
