/**
  Which loaded extension modules a selection keeps, and why the others do not run.
*/
module ExtensionSelection {
  import opened Common

  datatype Reason = PassiveOnly | NoPassive | NotSelected | DirLoaded

  // ids of the loaded extensions, active and passive, and the options they are
  // narrowed by; byPattern and byTag are the ids the patterns and tags match.
  datatype Request = Request(
    active: seq<string>, passive: seq<string>, modules: seq<string>, passiveModules: seq<string>,
    prefixed: string -> bool, lower: string -> string, patterns: set<string>,
    byPattern: set<string>, byTag: set<string>, explicit: set<string>)

  predicate IsAll(ids: seq<string>) {
    ids == [] || ids == ["all"]
  }

  predicate Loaded(r: Request, id: string) {
    id in r.active || id in r.passive
  }

  // The extensions the selection names.
  function Named(r: Request): set<string> {
    (set id | id in r.modules + r.passiveModules && r.prefixed(id) && Loaded(r, id)) + r.byPattern + r.byTag
  }

  // The extension ids the selection names that no loaded extension carries and
  // no pattern stands for.
  predicate IsUnknown(r: Request, id: string) {
    r.prefixed(id) && !Loaded(r, id) && r.lower(id) !in r.patterns
  }

  // How a category is narrowed: off for a reason, to what is named, or not.
  datatype Rule = Rule(off: Option<Reason>, narrowed: bool)

  function ActiveRule(r: Request): Rule {
    Rule(if r.modules == [] && r.passiveModules != [] then Some(PassiveOnly) else None, !IsAll(r.modules))
  }

  function PassiveRule(r: Request): Rule {
    Rule(if r.passiveModules == [] then Some(NoPassive) else None, !IsAll(r.passiveModules))
  }

  // Why an extension of a category does not run.
  function Refusal(r: Request, rule: Rule, id: string): Option<Reason> {
    if rule.off.Some? then rule.off
    else if !rule.narrowed then None
    else if Named(r) != {} then if id in Named(r) then None else Some(NotSelected)
    else if id in r.explicit then None
    else Some(DirLoaded)
  }

  // The extensions of a category that run, in the order they are loaded.
  function Kept(r: Request, rule: Rule, ids: seq<string>): seq<string> {
    if ids == [] then []
    else Kept(r, rule, ids[..|ids| - 1]) + if Refusal(r, rule, ids[|ids| - 1]).None? then [ids[|ids| - 1]] else []
  }

  // How many of the ids are refused for one reason.
  function Refused(r: Request, rule: Rule, ids: seq<string>, reason: Reason): nat {
    if ids == [] then 0
    else Refused(r, rule, ids[..|ids| - 1], reason) + if Refusal(r, rule, ids[|ids| - 1]) == Some(reason) then 1 else 0
  }

  function TotalRefused(r: Request, rule: Rule, ids: seq<string>): nat {
    Refused(r, rule, ids, PassiveOnly) + Refused(r, rule, ids, NoPassive)
    + Refused(r, rule, ids, NotSelected) + Refused(r, rule, ids, DirLoaded)
  }

  function Count(skipped: map<Reason, nat>, reason: Reason): nat {
    if reason in skipped then skipped[reason] else 0
  }

  // The sum of the counters.
  function Total(skipped: map<Reason, nat>): nat {
    Count(skipped, PassiveOnly) + Count(skipped, NoPassive) + Count(skipped, NotSelected) + Count(skipped, DirLoaded)
  }

  // The unknown ids of a list, each where it is first named.
  function Unknown(r: Request, ids: seq<string>): seq<string> {
    if ids == [] then []
    else
      var before := Unknown(r, ids[..|ids| - 1]);
      var id := ids[|ids| - 1];
      if IsUnknown(r, id) && id !in before then before + [id] else before
  }

  // Every loaded extension is selected or refused for exactly one reason.
  lemma {:induction false} EveryReasonAddsUp(r: Request, rule: Rule, ids: seq<string>)
    ensures |Kept(r, rule, ids)| + TotalRefused(r, rule, ids) == |ids|
  {
    if ids != [] {
      EveryReasonAddsUp(r, rule, ids[..|ids| - 1]);
      var why := Refusal(r, rule, ids[|ids| - 1]);
      assert why.None? || why.value.PassiveOnly? || why.value.NoPassive? || why.value.NotSelected?
        || why.value.DirLoaded?;
    }
  }

  class Selection {
    var active: seq<string>
    var passive: seq<string>
    var skipped: map<Reason, nat>
    var unknown: seq<string>

    constructor ()
      ensures active == passive == [] && skipped == map[] && unknown == []
    {
      active, passive, skipped, unknown := [], [], map[], [];
    }

    method FilterExtensions(r: Request)
      requires active == passive == [] && skipped == map[] && unknown == []
      modifies this
      ensures active == Kept(r, ActiveRule(r), r.active) && passive == Kept(r, PassiveRule(r), r.passive)
      ensures forall reason ::
        Count(skipped, reason) ==
          Refused(r, ActiveRule(r), r.active, reason) + Refused(r, PassiveRule(r), r.passive, reason)
      ensures |active| + |passive| + Total(skipped) == |r.active| + |r.passive|
      ensures unknown == Unknown(r, r.modules + r.passiveModules)
    {
      CollectUnknown(r);
      active := Narrow(r, ActiveRule(r), r.active);
      passive := Narrow(r, PassiveRule(r), r.passive);
      EveryReasonAddsUp(r, ActiveRule(r), r.active);
      EveryReasonAddsUp(r, PassiveRule(r), r.passive);
    }

    method CollectUnknown(r: Request)
      requires unknown == []
      modifies this`unknown
      ensures unknown == Unknown(r, r.modules + r.passiveModules)
    {
      var ids := r.modules + r.passiveModules;
      for i := 0 to |ids|
        invariant unknown == Unknown(r, ids[..i])
      {
        assert ids[..i + 1][..i] == ids[..i];
        if IsUnknown(r, ids[i]) && ids[i] !in unknown {
          unknown := unknown + [ids[i]];
        }
      }
      assert ids[..|ids|] == ids;
    }

    // Narrows one category, counting what it drops.
    method Narrow(r: Request, rule: Rule, ids: seq<string>) returns (kept: seq<string>)
      modifies this`skipped
      ensures kept == Kept(r, rule, ids)
      ensures forall reason :: Count(skipped, reason) == Count(old(skipped), reason) + Refused(r, rule, ids, reason)
    {
      kept := [];
      for i := 0 to |ids|
        invariant kept == Kept(r, rule, ids[..i])
        invariant forall reason ::
          Count(skipped, reason) == Count(old(skipped), reason) + Refused(r, rule, ids[..i], reason)
      {
        assert ids[..i + 1][..i] == ids[..i];
        var reason := Refusal(r, rule, ids[i]);
        if reason.Some? {
          skipped := skipped[reason.value := Count(skipped, reason.value) + 1];
        } else {
          kept := kept + [ids[i]];
        }
      }
      assert ids[..|ids|] == ids;
    }
  }

  lemma {:induction false} AllKept(r: Request, rule: Rule, ids: seq<string>)
    requires rule.off.None? && !rule.narrowed
    ensures Kept(r, rule, ids) == ids
  {
    if ids != [] {
      AllKept(r, rule, ids[..|ids| - 1]);
      assert ids == ids[..|ids| - 1] + [ids[|ids| - 1]];
    }
  }

  lemma {:induction false} NoneKept(r: Request, rule: Rule, ids: seq<string>)
    requires rule.off.Some?
    ensures Kept(r, rule, ids) == []
  {
    if ids != [] { NoneKept(r, rule, ids[..|ids| - 1]); }
  }

  // An empty list of built-in modules stands for none, and drops the extensions
  // of its category too, except that with both lists empty every active
  // extension still runs.
  lemma EmptyActiveListDropsItsExtensionsIff(r: Request)
    requires r.modules == []
    ensures Kept(r, ActiveRule(r), r.active) == [] <==> r.passiveModules != [] || r.active == []
    ensures r.passiveModules == [] ==> Kept(r, ActiveRule(r), r.active) == r.active
  {
    if r.passiveModules == [] {
      AllKept(r, ActiveRule(r), r.active);
    } else {
      NoneKept(r, ActiveRule(r), r.active);
    }
  }

  // Every unknown id the selection names is listed, once.
  lemma {:induction false} UnknownIsListedOnce(r: Request, ids: seq<string>)
    ensures forall id :: id in Unknown(r, ids) <==> id in ids && IsUnknown(r, id)
    ensures Distinct(Unknown(r, ids))
  {
    if ids != [] {
      var init, last := ids[..|ids| - 1], ids[|ids| - 1];
      UnknownIsListedOnce(r, init);
      assert ids == init + [last];
      forall id ensures id in Unknown(r, ids) <==> id in ids && IsUnknown(r, id) {
        assert id in ids <==> id in init || id == last;
        assert id in Unknown(r, ids) <==> id in Unknown(r, init) || (id == last && IsUnknown(r, last));
      }
      if last !in Unknown(r, init) { DistinctSnoc(Unknown(r, init), last); }
    }
  }

  // ------------------------------------------------- one extension at a time

  // A list or a pattern or a tag of the selection picks the extension.
  predicate Picks(r: Request, id: string) {
    || id in r.byPattern || id in r.byTag
    || ((id in r.modules || id in r.passiveModules) && r.prefixed(id) && (id in r.active || id in r.passive))
  }

  ghost predicate PicksSome(r: Request) {
    exists id :: Picks(r, id)
  }

  // A category left to all its modules runs; a narrowed one what is picked, or,
  // when nothing is, the extensions loaded from a file that was named.
  ghost predicate Runs(r: Request, list: seq<string>, id: string) {
    list == ["all"] || Picks(r, id) || (!PicksSome(r) && id in r.explicit)
  }

  ghost predicate ActiveRuns(r: Request, id: string) {
    if r.modules == [] then r.passiveModules == [] else Runs(r, r.modules, id)
  }

  ghost predicate PassiveRuns(r: Request, id: string) {
    r.passiveModules != [] && Runs(r, r.passiveModules, id)
  }

  lemma NamedIsPicked(r: Request)
    ensures forall id :: id in Named(r) <==> Picks(r, id)
    ensures Named(r) != {} <==> PicksSome(r)
  {
    forall id ensures id in Named(r) <==> Picks(r, id) {
      assert id in r.modules + r.passiveModules <==> id in r.modules || id in r.passiveModules;
    }
    if Named(r) != {} {
      var id :| id in Named(r);
      assert Picks(r, id);
    }
  }

  lemma {:induction false} KeptIsFiltered(r: Request, rule: Rule, ids: seq<string>, runs: string -> bool)
    requires forall id :: id in ids ==> (runs(id) <==> Refusal(r, rule, id).None?)
    ensures Kept(r, rule, ids) == Filter(ids, runs)
  {
    if ids != [] {
      var init := ids[..|ids| - 1];
      assert forall id :: id in init ==> id in ids;
      KeptIsFiltered(r, rule, init, runs);
    }
  }

  // What runs of each category is exactly what the selection leaves of it, in the
  // order it was loaded.
  lemma SelectionIsExact(r: Request, activeRuns: string -> bool, passiveRuns: string -> bool)
    requires forall id :: (activeRuns(id) <==> ActiveRuns(r, id)) && (passiveRuns(id) <==> PassiveRuns(r, id))
    ensures Kept(r, ActiveRule(r), r.active) == Filter(r.active, activeRuns)
    ensures Kept(r, PassiveRule(r), r.passive) == Filter(r.passive, passiveRuns)
  {
    NamedIsPicked(r);
    KeptIsFiltered(r, ActiveRule(r), r.active, activeRuns);
    KeptIsFiltered(r, PassiveRule(r), r.passive, passiveRuns);
  }

  // Why an extension that does not run is not run.
  ghost predicate DroppedFor(r: Request, active: bool, id: string, reason: Reason) {
    var list := if active then r.modules else r.passiveModules;
    var narrowed := list != [] && list != ["all"];
    match reason
    case PassiveOnly => active && r.modules == [] && r.passiveModules != []
    case NoPassive => !active && r.passiveModules == []
    case NotSelected => narrowed && PicksSome(r) && !Picks(r, id)
    case DirLoaded => narrowed && !PicksSome(r) && id !in r.explicit
  }

  lemma {:induction false} RefusedIsFiltered(r: Request, rule: Rule, ids: seq<string>, reason: Reason,
      dropped: string -> bool)
    requires forall id :: id in ids ==> (dropped(id) <==> Refusal(r, rule, id) == Some(reason))
    ensures Refused(r, rule, ids, reason) == |Filter(ids, dropped)|
  {
    if ids != [] {
      var init := ids[..|ids| - 1];
      assert forall id :: id in init ==> id in ids;
      RefusedIsFiltered(r, rule, init, reason, dropped);
    }
  }

  // Each reason counts the extensions dropped for it, and no other.
  lemma ReasonsAreExact(r: Request, reason: Reason, active: string -> bool, passive: string -> bool)
    requires forall id :: active(id) <==> DroppedFor(r, true, id, reason)
    requires forall id :: passive(id) <==> DroppedFor(r, false, id, reason)
    ensures Refused(r, ActiveRule(r), r.active, reason) == |Filter(r.active, active)|
    ensures Refused(r, PassiveRule(r), r.passive, reason) == |Filter(r.passive, passive)|
  {
    NamedIsPicked(r);
    RefusedIsFiltered(r, ActiveRule(r), r.active, reason, active);
    RefusedIsFiltered(r, PassiveRule(r), r.passive, reason, passive);
  }

  // The unknown ids: named as extensions, carried by none, and no pattern.
  lemma UnknownIff(r: Request, id: string)
    ensures id in Unknown(r, r.modules + r.passiveModules) <==>
      && (id in r.modules || id in r.passiveModules) && r.prefixed(id)
      && id !in r.active && id !in r.passive && r.lower(id) !in r.patterns
  {
    UnknownIsListedOnce(r, r.modules + r.passiveModules);
    assert id in r.modules + r.passiveModules <==> id in r.modules || id in r.passiveModules;
  }
}
