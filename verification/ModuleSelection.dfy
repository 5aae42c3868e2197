/**
  Which built-in modules a scan runs: a broad selection is narrowed gate by gate,
  and what is left is put in execution order.
*/
module ModuleSelection {
  import opened Common

  datatype Module = Module(id: string, tier: int, risky: bool, hygiene: bool, priority: int)

  datatype Intensity = Quick | Balanced | Deep

  datatype Options = Options(modules: seq<string>, passive: seq<string>, intensity: Intensity, allowRisky: Option<bool>)

  datatype Settings = Settings(active: seq<string>, passive: seq<string>, allowRisky: bool, hygiene: Option<bool>)

  // The registered modules, and how a list of ids picks from them.
  datatype Registry = Registry(active: seq<Module>, passive: seq<Module>,
                               activeByIds: seq<string> -> seq<Module>, passiveByIds: seq<string> -> seq<Module>)

  const MODERATE := 2
  const INTRUSIVE := 4

  function TierCeiling(i: Intensity): int {
    if i.Quick? then MODERATE else INTRUSIVE
  }

  predicate RiskyAllowed(o: Options, s: Option<Settings>) {
    o.intensity.Deep? || (if o.allowRisky.Some? then o.allowRisky.value else s.Some? && s.value.allowRisky)
  }

  predicate HygieneOn(o: Options, s: Option<Settings>) {
    if s.Some? && s.value.hygiene.Some? then s.value.hygiene.value else o.intensity.Deep?
  }

  // An explicit list of ids names a hygiene module.
  predicate NamesHygiene(reg: Registry, ids: seq<string>) {
    && ids != [] && ids[0] != "all"
    && ((exists m :: m in reg.activeByIds(ids) && m.hygiene) || (exists m :: m in reg.passiveByIds(ids) && m.hygiene))
  }

  predicate HygieneGate(reg: Registry, o: Options, s: Option<Settings>) {
    !HygieneOn(o, s) && !NamesHygiene(reg, o.modules) && !NamesHygiene(reg, o.passive)
  }

  predicate IsAll(ids: seq<string>) {
    ids == [] || ids == ["all"]
  }

  // ------------------------------------------------- splitting

  function Ids(mods: seq<Module>): seq<string> {
    Map(mods, (m: Module) => m.id)
  }

  // What a gate looks at.
  datatype Test = AboveTier(ceiling: int) | RiskHigh | Hygiene

  predicate Drops(t: Test, m: Module) {
    match t
    case AboveTier(ceiling) => m.tier > ceiling
    case RiskHigh => m.risky
    case Hygiene => m.hygiene
  }

  function Keeps(t: Test): Module -> bool {
    (m: Module) => !Drops(t, m)
  }

  function Loses(t: Test): Module -> bool {
    (m: Module) => Drops(t, m)
  }

  function KeptBy(mods: seq<Module>, t: Test): seq<Module> {
    Filter(mods, Keeps(t))
  }

  function DroppedBy(mods: seq<Module>, t: Test): seq<Module> {
    Filter(mods, Loses(t))
  }

  method Partition(mods: seq<Module>, t: Test) returns (kept: seq<Module>, dropped: seq<string>)
    ensures kept == KeptBy(mods, t)
    ensures dropped == Ids(DroppedBy(mods, t))
  {
    kept, dropped := [], [];
    for i := 0 to |mods|
      invariant kept == KeptBy(mods[..i], t)
      invariant dropped == Ids(DroppedBy(mods[..i], t))
    {
      assert mods[..i + 1][..i] == mods[..i];
      if Drops(t, mods[i]) {
        dropped := dropped + [mods[i].id];
      } else {
        kept := kept + [mods[i]];
      }
    }
    assert mods[..|mods|] == mods;
  }

  // ------------------------------------------------- sorting

  predicate Sorted(s: seq<Module>) {
    forall i, j :: 0 <= i < j < |s| ==> s[i].priority <= s[j].priority
  }

  // m goes behind the modules of its own priority or a smaller one.
  function Insert(s: seq<Module>, m: Module): seq<Module> {
    if s == [] || s[|s| - 1].priority <= m.priority then s + [m]
    else Insert(s[..|s| - 1], m) + [s[|s| - 1]]
  }

  function StableSort(s: seq<Module>): seq<Module> {
    if s == [] then [] else Insert(StableSort(s[..|s| - 1]), s[|s| - 1])
  }

  function At(s: seq<Module>, priority: int): seq<Module> {
    Filter(s, (m: Module) => m.priority == priority)
  }

  lemma SortedSnoc(s: seq<Module>, m: Module)
    requires Sorted(s) && forall x :: x in s ==> x.priority <= m.priority
    ensures Sorted(s + [m])
  {
  }

  lemma MultisetSnoc(s: seq<Module>, m: Module)
    ensures multiset(s + [m]) == multiset(s) + multiset{m}
  {
  }

  lemma {:induction false} InsertKeeps(s: seq<Module>, m: Module)
    ensures multiset(Insert(s, m)) == multiset(s) + multiset{m}
  {
    if s == [] || s[|s| - 1].priority <= m.priority {
      MultisetSnoc(s, m);
    } else {
      var init, last := s[..|s| - 1], s[|s| - 1];
      InsertKeeps(init, m);
      MultisetSnoc(Insert(init, m), last);
      MultisetSnoc(init, last);
      assert s == init + [last];
    }
  }

  lemma {:induction false} InsertSorts(s: seq<Module>, m: Module)
    requires Sorted(s)
    ensures Sorted(Insert(s, m))
  {
    if s == [] || s[|s| - 1].priority <= m.priority {
      SortedSnoc(s, m);
    } else {
      var init, last := s[..|s| - 1], s[|s| - 1];
      InsertSorts(init, m);
      InsertKeeps(init, m);
      forall x | x in Insert(init, m) ensures x.priority <= last.priority {
        assert x in multiset(Insert(init, m));
      }
      SortedSnoc(Insert(init, m), last);
    }
  }

  lemma AtSnoc(s: seq<Module>, m: Module, priority: int)
    ensures At(s + [m], priority) == At(s, priority) + if m.priority == priority then [m] else []
  {
    FilterSnoc(s, m, (m: Module) => m.priority == priority);
  }

  lemma {:induction false} InsertIsStable(s: seq<Module>, m: Module, priority: int)
    requires Sorted(s)
    ensures At(Insert(s, m), priority) == At(s, priority) + if m.priority == priority then [m] else []
  {
    if s == [] || s[|s| - 1].priority <= m.priority {
      AtSnoc(s, m, priority);
    } else {
      var init, last := s[..|s| - 1], s[|s| - 1];
      InsertIsStable(init, m, priority);
      AtSnoc(Insert(init, m), last, priority);
      AtSnoc(init, last, priority);
      assert s == init + [last];
    }
  }

  lemma {:induction false} SortKeeps(s: seq<Module>)
    ensures multiset(StableSort(s)) == multiset(s)
  {
    if s != [] {
      var init, last := s[..|s| - 1], s[|s| - 1];
      SortKeeps(init);
      InsertKeeps(StableSort(init), last);
      MultisetSnoc(init, last);
      assert s == init + [last];
    }
  }

  lemma {:induction false} SortOrders(s: seq<Module>, priority: int)
    ensures Sorted(StableSort(s)) && At(StableSort(s), priority) == At(s, priority)
  {
    if s != [] {
      var init, last := s[..|s| - 1], s[|s| - 1];
      SortOrders(init, priority);
      InsertSorts(StableSort(init), last);
      InsertIsStable(StableSort(init), last, priority);
      AtSnoc(init, last, priority);
      assert s == init + [last];
    }
  }

  // The sort orders by priority, loses and adds nothing, and keeps the order of
  // modules of one priority.
  lemma SortIsStable(s: seq<Module>, priority: int)
    ensures Sorted(StableSort(s)) && multiset(StableSort(s)) == multiset(s)
    ensures At(StableSort(s), priority) == At(s, priority)
  {
    SortKeeps(s);
    SortOrders(s, priority);
  }

  // ------------------------------------------------- one category

  // What one category of modules comes to, and what each gate dropped.
  datatype Outcome = Outcome(mods: seq<Module>, byConfig: bool, tier: seq<string>, risk: seq<string>,
      hygiene: seq<string>)

  // The selection is everything, and no configured list narrows it.
  predicate Broad(wanted: seq<string>, listed: Option<seq<string>>) {
    wanted != [] && wanted[0] == "all" && (listed.None? || IsAll(listed.value))
  }

  // The three gates of a broad selection, one after the other.
  datatype Gates = Gates(ceiling: int, risk: bool, hygiene: bool)

  function InTier(g: Gates, all: seq<Module>): seq<Module> {
    KeptBy(all, AboveTier(g.ceiling))
  }

  function Safe(g: Gates, all: seq<Module>): seq<Module> {
    if g.risk then KeptBy(InTier(g, all), RiskHigh) else InTier(g, all)
  }

  function Left(g: Gates, all: seq<Module>): seq<Module> {
    if g.hygiene then KeptBy(Safe(g, all), Hygiene) else Safe(g, all)
  }

  function Gated(g: Gates, all: seq<Module>): Outcome {
    Outcome(Left(g, all), false, Ids(DroppedBy(all, AboveTier(g.ceiling))),
            if g.risk then Ids(DroppedBy(InTier(g, all), RiskHigh)) else [],
            if g.hygiene then Ids(DroppedBy(Safe(g, all), Hygiene)) else [])
  }

  function Category(g: Gates, all: seq<Module>, byIds: seq<string> -> seq<Module>, wanted: seq<string>,
      listed: Option<seq<string>>): Outcome
  {
    if wanted == [] then Outcome([], false, [], [], [])
    else if wanted[0] != "all" then Outcome(StableSort(byIds(wanted)), false, [], [], [])
    else if !Broad(wanted, listed) then Outcome(StableSort(byIds(listed.value)), true, [], [], [])
    else Gated(g, all).(mods := StableSort(Left(g, all)))
  }

  function GatesOf(reg: Registry, o: Options, s: Option<Settings>): Gates {
    Gates(TierCeiling(o.intensity), !RiskyAllowed(o, s), HygieneGate(reg, o, s))
  }

  function ActiveOf(reg: Registry, o: Options, s: Option<Settings>): Outcome {
    Category(GatesOf(reg, o, s), reg.active, reg.activeByIds, o.modules, if s.Some? then Some(s.value.active) else None)
  }

  function PassiveOf(reg: Registry, o: Options, s: Option<Settings>): Outcome {
    Category(GatesOf(reg, o, s), reg.passive, reg.passiveByIds, o.passive, if s.Some? then Some(s.value.passive)
      else None)
  }

  // ------------------------------------------------- the selection

  // An empty list picks nothing, a leading "all" everything, any other its ids.
  method Pick(all: seq<Module>, byIds: seq<string> -> seq<Module>, wanted: seq<string>)
    returns (usingAll: bool, mods: seq<Module>)
    ensures usingAll <==> wanted != [] && wanted[0] == "all"
    ensures mods == if wanted == [] then [] else if usingAll then all else byIds(wanted)
  {
    usingAll, mods := false, [];
    if |wanted| > 0 {
      if wanted[0] == "all" {
        return true, all;
      }
      mods := byIds(wanted);
    }
  }

  // The gates of one category, each dropping from what the one before kept.
  method GateAll(all: seq<Module>, g: Gates) returns (r: Outcome)
    ensures r == Gated(g, all)
  {
    var mods, tier := Partition(all, AboveTier(g.ceiling));
    var risk, hygiene: seq<string> := [], [];
    if g.risk { mods, risk := Partition(mods, RiskHigh); }
    if g.hygiene { mods, hygiene := Partition(mods, Hygiene); }
    r := Outcome(mods, false, tier, risk, hygiene);
  }

  // Picks one category, lets a configured list narrow "all", gates what is left
  // of a broad selection, and puts it in execution order.
  method SelectCategory(g: Gates, all: seq<Module>, byIds: seq<string> -> seq<Module>, wanted: seq<string>,
      listed: Option<seq<string>>)
      returns (c: Outcome)
    ensures c == Category(g, all, byIds, wanted, listed)
  {
    var usingAll, picked := Pick(all, byIds, wanted);
    c := Outcome(picked, false, [], [], []);
    if listed.Some? && usingAll && !IsAll(listed.value) {
      c := c.(mods := byIds(listed.value), byConfig := true);
    }
    if usingAll && !c.byConfig {
      c := GateAll(c.mods, g);
    }
    c := c.(mods := StableSort(c.mods));
  }

  class Selection {
    var active: Outcome
    var passive: Outcome
    var tierDeferred: seq<string>
    var riskWithheld: seq<string>
    var hygieneSuppressed: seq<string>

    constructor ()
      ensures active == passive == Outcome([], false, [], [], []) &&
        tierDeferred == riskWithheld == hygieneSuppressed == []
    {
      active, passive := Outcome([], false, [], [], []), Outcome([], false, [], [], []);
      tierDeferred, riskWithheld, hygieneSuppressed := [], [], [];
    }

    method FilterForRun(reg: Registry, o: Option<Options>, s: Option<Settings>)
      requires active == passive == Outcome([], false, [], [], []) &&
        tierDeferred == riskWithheld == hygieneSuppressed == []
      modifies this
      ensures o.None? ==> active == passive == Outcome([], false, [], [], [])
      ensures o.Some? ==> active == ActiveOf(reg, o.value, s) && passive == PassiveOf(reg, o.value, s)
      ensures tierDeferred == active.tier + passive.tier
      ensures riskWithheld == active.risk + passive.risk
      ensures hygieneSuppressed == active.hygiene + passive.hygiene
    {
      if o.None? { return; }
      var opts := o.value;
      var g := Gates(TierCeiling(opts.intensity), !RiskyAllowed(opts, s), HygieneGate(reg, opts, s));
      active := SelectCategory(g, reg.active, reg.activeByIds, opts.modules, if s.Some? then Some(s.value.active)
        else None);
      passive := SelectCategory(g, reg.passive, reg.passiveByIds, opts.passive, if s.Some? then Some(s.value.passive)
        else None);
      tierDeferred := active.tier + passive.tier;
      riskWithheld := active.risk + passive.risk;
      hygieneSuppressed := active.hygiene + passive.hygiene;
    }
  }

  // ------------------------------------------------- what is kept and what is lost

  lemma IdsSnoc(s: seq<Module>, m: Module)
    ensures multiset(Ids(s + [m])) == multiset(Ids(s)) + multiset{m.id}
  {
    assert Ids(s + [m]) == Ids(s) + [m.id];
  }

  lemma {:induction false} PartitionConserves(mods: seq<Module>, t: Test)
    ensures multiset(Ids(KeptBy(mods, t))) + multiset(Ids(DroppedBy(mods, t))) == multiset(Ids(mods))
  {
    if mods != [] {
      var init, last := mods[..|mods| - 1], mods[|mods| - 1];
      PartitionConserves(init, t);
      assert mods == init + [last];
      IdsSnoc(init, last);
      if Drops(t, last) {
        assert KeptBy(init, t) + [] == KeptBy(init, t);
        IdsSnoc(DroppedBy(init, t), last);
      } else {
        assert DroppedBy(init, t) + [] == DroppedBy(init, t);
        IdsSnoc(KeptBy(init, t), last);
      }
    }
  }

  lemma {:induction false} InsertKeepsIds(s: seq<Module>, m: Module)
    ensures multiset(Ids(Insert(s, m))) == multiset(Ids(s)) + multiset{m.id}
  {
    if s == [] || s[|s| - 1].priority <= m.priority {
      IdsSnoc(s, m);
    } else {
      var init, last := s[..|s| - 1], s[|s| - 1];
      InsertKeepsIds(init, m);
      IdsSnoc(Insert(init, m), last);
      IdsSnoc(init, last);
      assert s == init + [last];
    }
  }

  lemma {:induction false} SortKeepsIds(s: seq<Module>)
    ensures multiset(Ids(StableSort(s))) == multiset(Ids(s))
  {
    if s != [] {
      var init, last := s[..|s| - 1], s[|s| - 1];
      SortKeepsIds(init);
      InsertKeepsIds(StableSort(init), last);
      assert s == init + [last];
      IdsSnoc(init, last);
    }
  }

  // A broad selection accounts for every registered module: it runs, or exactly
  // one gate dropped it.
  lemma SelectionConserves(g: Gates, all: seq<Module>, byIds: seq<string> -> seq<Module>, wanted: seq<string>,
      listed: Option<seq<string>>)
    requires Broad(wanted, listed)
    ensures var c := Category(g, all, byIds, wanted, listed);
      multiset(Ids(c.mods)) + multiset(c.tier) + multiset(c.risk) + multiset(c.hygiene) == multiset(Ids(all))
  {
    PartitionConserves(all, AboveTier(g.ceiling));
    PartitionConserves(InTier(g, all), RiskHigh);
    PartitionConserves(Safe(g, all), Hygiene);
    SortKeepsIds(Left(g, all));
  }

  // A module passes every gate that is on.
  predicate Passes(g: Gates, m: Module) {
    m.tier <= g.ceiling && (g.risk ==> !m.risky) && (g.hygiene ==> !m.hygiene)
  }

  function Passing(g: Gates, all: seq<Module>): seq<Module> {
    Filter(all, (m: Module) => Passes(g, m))
  }

  lemma KeptJoins(mods: seq<Module>, m: Module, t: Test)
    ensures KeptBy(mods + [m], t) == KeptBy(mods, t) + if Drops(t, m) then [] else [m]
  {
    FilterSnoc(mods, m, Keeps(t));
  }

  lemma LeftJoins(g: Gates, init: seq<Module>, last: Module)
    ensures Left(g, init + [last]) == Left(g, init) + if Passes(g, last) then [last] else []
  {
    KeptJoins(init, last, AboveTier(g.ceiling));
    KeptJoins(InTier(g, init), last, RiskHigh);
    KeptJoins(Safe(g, init), last, Hygiene);
    assert InTier(g, init) + [] == InTier(g, init) && Safe(g, init) + [] == Safe(g, init) &&
      Left(g, init) + [] == Left(g, init);
  }

  lemma {:induction false} LeftIsPassing(g: Gates, all: seq<Module>)
    ensures Left(g, all) == Passing(g, all)
  {
    if all != [] {
      var init, last := all[..|all| - 1], all[|all| - 1];
      LeftIsPassing(g, init);
      assert all == init + [last];
      LeftJoins(g, init, last);
    }
  }

  // What runs, in which order: the modules that pass every gate, by priority,
  // those of one priority as they are registered.
  lemma BroadSelectionIsExact(g: Gates, all: seq<Module>, byIds: seq<string> -> seq<Module>, wanted: seq<string>,
      listed: Option<seq<string>>, priority: int)
    requires Broad(wanted, listed)
    ensures var mods := Category(g, all, byIds, wanted, listed).mods;
      && multiset(mods) == multiset(Passing(g, all)) && Sorted(mods)
      && At(mods, priority) == At(Passing(g, all), priority)
  {
    LeftIsPassing(g, all);
    SortIsStable(Left(g, all), priority);
  }

  // A list of ids, given or configured, runs as it is picked: no gate drops from it.
  lemma ExplicitListRunsVerbatim(g: Gates, all: seq<Module>, byIds: seq<string> -> seq<Module>, wanted: seq<string>,
      listed: Option<seq<string>>)
    requires wanted != [] && !Broad(wanted, listed)
    ensures var c := Category(g, all, byIds, wanted, listed);
      && c.tier == c.risk == c.hygiene == []
      && multiset(c.mods) == multiset(byIds(if wanted[0] == "all" then listed.value else wanted))
  {
    SortIsStable(byIds(if wanted[0] == "all" then listed.value else wanted), 0);
  }

  // ------------------------------------------------- more intensity, more modules

  predicate NoLess(a: Intensity, b: Intensity) {
    a.Quick? || b.Deep? || (a.Balanced? && b.Balanced?)
  }

  // The gates of the higher intensity let through whatever the lower one does.
  lemma GatesWiden(reg: Registry, o: Options, s: Option<Settings>, a: Intensity, b: Intensity, m: Module)
    requires NoLess(a, b) && Passes(GatesOf(reg, o.(intensity := a), s), m)
    ensures Passes(GatesOf(reg, o.(intensity := b), s), m)
  {
    var lower, higher := o.(intensity := a), o.(intensity := b);
    assert RiskyAllowed(lower, s) ==> RiskyAllowed(higher, s);
    assert HygieneGate(reg, higher, s) ==> HygieneGate(reg, lower, s) by {
      assert NamesHygiene(reg, higher.modules) == NamesHygiene(reg, lower.modules);
      assert NamesHygiene(reg, higher.passive) == NamesHygiene(reg, lower.passive);
    }
  }

  lemma {:induction false} PassingGrows(g: Gates, h: Gates, all: seq<Module>)
    requires forall m :: Passes(g, m) ==> Passes(h, m)
    ensures multiset(Passing(g, all)) <= multiset(Passing(h, all))
  {
    if all != [] { PassingGrows(g, h, all[..|all| - 1]); }
  }

  lemma CategoryGrows(g: Gates, h: Gates, all: seq<Module>, byIds: seq<string> -> seq<Module>, wanted: seq<string>,
      listed: Option<seq<string>>)
    requires forall m :: Passes(g, m) ==> Passes(h, m)
    ensures multiset(Category(g, all, byIds, wanted, listed).mods) <=
      multiset(Category(h, all, byIds, wanted, listed).mods)
  {
    if Broad(wanted, listed) {
      BroadSelectionIsExact(g, all, byIds, wanted, listed, 0);
      BroadSelectionIsExact(h, all, byIds, wanted, listed, 0);
      PassingGrows(g, h, all);
    }
  }

  // For fixed settings, whatever runs at quick runs at balanced, and whatever
  // runs at balanced runs at deep.
  lemma MoreIntensityRunsMore(reg: Registry, o: Options, s: Option<Settings>, a: Intensity, b: Intensity)
    requires NoLess(a, b)
    ensures multiset(ActiveOf(reg, o.(intensity := a), s).mods) <= multiset(ActiveOf(reg, o.(intensity := b), s).mods)
    ensures multiset(PassiveOf(reg, o.(intensity := a), s).mods) <= multiset(PassiveOf(reg, o.(intensity := b), s).mods)
  {
    var lower, higher := GatesOf(reg, o.(intensity := a), s), GatesOf(reg, o.(intensity := b), s);
    forall m | Passes(lower, m) ensures Passes(higher, m) { GatesWiden(reg, o, s, a, b, m); }
    CategoryGrows(lower, higher, reg.active, reg.activeByIds, o.modules, if s.Some? then Some(s.value.active)
      else None);
    CategoryGrows(lower, higher, reg.passive, reg.passiveByIds, o.passive, if s.Some? then Some(s.value.passive)
      else None);
  }

  // ------------------------------------------------- the selection from the options

  // Some list that is not "all" picks a hygiene module of either category.
  ghost predicate AsksForHygiene(reg: Registry, ids: seq<string>) {
    && ids != [] && ids[0] != "all"
    && exists m :: (m in reg.activeByIds(ids) || m in reg.passiveByIds(ids)) && m.hygiene
  }

  // The operator allows risky payloads: the flag decides, and the settings where
  // it is not given.
  predicate OptsIn(o: Options, s: Option<Settings>) {
    o.allowRisky == Some(true) || (o.allowRisky.None? && s.Some? && s.value.allowRisky)
  }

  // Hygiene modules are wanted: the settings decide, and the intensity where they
  // say nothing.
  predicate WantsHygiene(o: Options, s: Option<Settings>) {
    (s.Some? && s.value.hygiene == Some(true)) || ((s.None? || s.value.hygiene.None?) && o.intensity.Deep?)
  }

  // What a broad selection lets a module run on.
  ghost predicate MayRun(reg: Registry, o: Options, s: Option<Settings>, m: Module) {
    && m.tier <= (if o.intensity.Quick? then 2 else 4)
    && (m.risky ==> o.intensity.Deep? || OptsIn(o, s))
    && (m.hygiene ==> WantsHygiene(o, s) || AsksForHygiene(reg, o.modules) || AsksForHygiene(reg, o.passive))
  }

  lemma HygieneIsAsked(reg: Registry, ids: seq<string>)
    ensures NamesHygiene(reg, ids) <==> AsksForHygiene(reg, ids)
  {
  }

  lemma PassesIffMayRun(reg: Registry, o: Options, s: Option<Settings>, m: Module)
    ensures Passes(GatesOf(reg, o, s), m) <==> MayRun(reg, o, s, m)
  {
    HygieneIsAsked(reg, o.modules);
    HygieneIsAsked(reg, o.passive);
  }

  lemma {:induction false} FilterSame(s: seq<Module>, p: Module -> bool, q: Module -> bool)
    requires forall m :: p(m) <==> q(m)
    ensures Filter(s, p) == Filter(s, q)
  {
    if s != [] { FilterSame(s[..|s| - 1], p, q); }
  }

  // The category is everything, and no configured list narrows it.
  predicate Everything(wanted: seq<string>, listed: seq<string>) {
    wanted != [] && wanted[0] == "all" && (listed == [] || listed == ["all"])
  }

  // With everything selected, exactly the modules the options let run do: by
  // priority, and those of one priority as they are registered.
  lemma EverythingRunsWhatMayRun(reg: Registry, o: Options, s: Option<Settings>, mayRun: Module -> bool, priority: int)
    requires forall m :: mayRun(m) <==> MayRun(reg, o, s, m)
    ensures Everything(o.modules, if s.Some? then s.value.active else []) ==>
      var mods := ActiveOf(reg, o, s).mods;
      multiset(mods) == multiset(Filter(reg.active, mayRun)) && Sorted(mods) &&
        At(mods, priority) == At(Filter(reg.active, mayRun), priority)
    ensures Everything(o.passive, if s.Some? then s.value.passive else []) ==>
      var mods := PassiveOf(reg, o, s).mods;
      multiset(mods) == multiset(Filter(reg.passive, mayRun)) && Sorted(mods) &&
        At(mods, priority) == At(Filter(reg.passive, mayRun), priority)
  {
    var g := GatesOf(reg, o, s);
    forall m ensures Passes(g, m) <==> mayRun(m) { PassesIffMayRun(reg, o, s, m); }
    FilterSame(reg.active, (m: Module) => Passes(g, m), mayRun);
    FilterSame(reg.passive, (m: Module) => Passes(g, m), mayRun);
    if Everything(o.modules, if s.Some? then s.value.active else []) {
      BroadSelectionIsExact(g, reg.active, reg.activeByIds, o.modules, if s.Some? then Some(s.value.active) else None,
        priority);
    }
    if Everything(o.passive, if s.Some? then s.value.passive else []) {
      BroadSelectionIsExact(g, reg.passive, reg.passiveByIds, o.passive,
        if s.Some? then Some(s.value.passive) else None, priority);
    }
  }

  lemma {:induction false} FilterTwice(s: seq<Module>, p: Module -> bool, q: Module -> bool, both: Module -> bool)
    requires forall m :: both(m) <==> p(m) && q(m)
    ensures Filter(Filter(s, p), q) == Filter(s, both)
  {
    if s != [] {
      var init, last := s[..|s| - 1], s[|s| - 1];
      FilterTwice(init, p, q, both);
      FilterSnoc(Filter(init, p), last, q);
      assert Filter(init, p) + [] == Filter(init, p);
    }
  }

  // The modules above the ceiling, the risky ones below it, and the hygiene ones
  // among those that are left.
  function TooHigh(ceiling: int): Module -> bool {
    (m: Module) => m.tier > ceiling
  }

  function TooRisky(ceiling: int): Module -> bool {
    (m: Module) => m.tier <= ceiling && m.risky
  }

  function Advisory(ceiling: int, risk: bool): Module -> bool {
    (m: Module) => m.tier <= ceiling && !(risk && m.risky) && m.hygiene
  }

  // The modules the first two gates leave.
  function NotTooRisky(ceiling: int): Module -> bool {
    (m: Module) => m.tier <= ceiling && !m.risky
  }

  lemma SafeAre(g: Gates, all: seq<Module>)
    ensures g.risk ==> Safe(g, all) == Filter(all, NotTooRisky(g.ceiling))
    ensures DroppedBy(InTier(g, all), RiskHigh) == Filter(all, TooRisky(g.ceiling))
  {
    FilterTwice(all, Keeps(AboveTier(g.ceiling)), Keeps(RiskHigh), NotTooRisky(g.ceiling));
    FilterTwice(all, Keeps(AboveTier(g.ceiling)), Loses(RiskHigh), TooRisky(g.ceiling));
  }

  lemma AdvisoriesAre(g: Gates, all: seq<Module>)
    ensures DroppedBy(Safe(g, all), Hygiene) == Filter(all, Advisory(g.ceiling, g.risk))
  {
    SafeAre(g, all);
    if g.risk {
      FilterTwice(all, NotTooRisky(g.ceiling), Loses(Hygiene), Advisory(g.ceiling, g.risk));
    } else {
      FilterTwice(all, Keeps(AboveTier(g.ceiling)), Loses(Hygiene), Advisory(g.ceiling, g.risk));
    }
  }

  // What each gate of a broad selection drops, and that it drops nothing while it
  // is off: of all modules those above the tier, of the rest the risky ones, of
  // what is left then the hygiene ones, as they are registered.
  lemma DropsAreExact(g: Gates, all: seq<Module>, byIds: seq<string> -> seq<Module>, wanted: seq<string>,
      listed: Option<seq<string>>)
    requires Everything(wanted, if listed.Some? then listed.value else [])
    ensures var c := Category(g, all, byIds, wanted, listed);
      && !c.byConfig && c.tier == Ids(Filter(all, TooHigh(g.ceiling)))
      && c.risk == (if g.risk then Ids(Filter(all, TooRisky(g.ceiling))) else [])
      && c.hygiene == (if g.hygiene then Ids(Filter(all, Advisory(g.ceiling, g.risk))) else [])
  {
    FilterSame(all, Loses(AboveTier(g.ceiling)), TooHigh(g.ceiling));
    SafeAre(g, all);
    AdvisoriesAre(g, all);
  }

  // An empty list picks nothing. A list of ids, given or configured, runs as it is
  // picked, by priority and with nothing dropped, and whether it was the configured
  // one is recorded.
  lemma ListsRunAsPicked(g: Gates, all: seq<Module>, byIds: seq<string> -> seq<Module>, wanted: seq<string>,
      listed: Option<seq<string>>, priority: int)
    requires !Everything(wanted, if listed.Some? then listed.value else [])
    ensures var c := Category(g, all, byIds, wanted, listed);
      && c.tier == c.risk == c.hygiene == [] && (c.byConfig <==> wanted != [] && wanted[0] == "all")
      && var picked := if wanted == [] then [] else byIds(if wanted[0] == "all" then listed.value else wanted);
         multiset(c.mods) == multiset(picked) && Sorted(c.mods) && At(c.mods, priority) == At(picked, priority)
  {
    if wanted != [] { SortIsStable(byIds(if wanted[0] == "all" then listed.value else wanted), priority); }
  }
}
