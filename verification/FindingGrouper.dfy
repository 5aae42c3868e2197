/**
  Collapsing findings that repeat one value into one console line each, with the
  tallies that go with it.
*/
module FindingGrouper {
  import opened Common

  datatype Severity = Undefined | Info | Suspect | Low | Medium | High | Critical

  // key is the grouping key, if the finding can be grouped; url may be empty.
  datatype Finding = Finding(severity: Severity, key: Option<string>, name: string, url: string)

  datatype Group = Group(name: string, severity: Severity, sample: seq<string>, count: nat)

  const MAX_SAMPLE := 3
  const MAX_LINES := 20

  datatype State = State(groups: map<string, Group>, order: seq<string>, grouped: map<Severity, nat>,
      raw: map<Severity, nat>)

  const START := State(map[], [], map[], map[])

  function Count(m: map<Severity, nat>, s: Severity): nat {
    if s in m then m[s] else 0
  }

  function Bump(m: map<Severity, nat>, s: Severity): map<Severity, nat> {
    m[s := Count(m, s) + 1]
  }

  function Part(m: map<Severity, nat>, of: set<Severity>, s: Severity): nat {
    if s in of then Count(m, s) else 0
  }

  // The sum of the tallies of some severities.
  function Sum(m: map<Severity, nat>, of: set<Severity>): nat {
    Part(m, of, Undefined) + Part(m, of, Info) + Part(m, of, Suspect) + Part(m, of, Low)
    + Part(m, of, Medium) + Part(m, of, High) + Part(m, of, Critical)
  }

  function Total(m: map<Severity, nat>): nat {
    Count(m, Undefined) + Count(m, Info) + Count(m, Suspect) + Count(m, Low) + Count(m, Medium) + Count(m, High)
      + Count(m, Critical)
  }

  function AppendUnique(list: seq<string>, s: string): seq<string> {
    if s in list then list else list + [s]
  }

  function Sampled(sample: seq<string>, url: string): seq<string> {
    if url != "" && |sample| < MAX_SAMPLE then AppendUnique(sample, url) else sample
  }

  // ------------------------------------------------- one finding

  function Next(s: State, f: Finding): State {
    var raw := Bump(s.raw, f.severity);
    match f.key
    case None => s.(raw := raw, grouped := Bump(s.grouped, f.severity))
    case Some(k) =>
      var seen := k in s.groups;
      var g := if seen then s.groups[k] else Group(f.name, f.severity, [], 0);
      State(s.groups[k := g.(count := g.count + 1, sample := Sampled(g.sample, f.url))],
            if seen then s.order else s.order + [k],
            if seen then s.grouped else Bump(s.grouped, f.severity),
            raw)
  }

  // The finding gets a console line of its own.
  predicate Shows(s: State, f: Finding) {
    f.key.None? || f.key.value !in s.groups
  }

  method AppendUniqueStr(list: seq<string>, s: string) returns (r: seq<string>)
    ensures r == AppendUnique(list, s)
  {
    for i := 0 to |list|
      invariant s !in list[..i]
    {
      if list[i] == s { return list; }
    }
    assert list[..|list|] == list;
    r := list + [s];
  }

  // The groups that collapsed something, in order.
  function Collapsed(groups: map<string, Group>, order: seq<string>): seq<string> {
    if order == [] then []
    else
      var k := order[|order| - 1];
      Collapsed(groups, order[..|order| - 1]) + if k in groups && groups[k].count > 1 then [k] else []
  }

  lemma PartOneMore(m: map<Severity, nat>, of: set<Severity>, s: Severity, t: Severity)
    requires s !in of
    ensures Part(m, of + {s}, t) == Part(m, of, t) + if t == s then Count(m, s) else 0
  {
  }

  lemma SumOneMore(m: map<Severity, nat>, of: set<Severity>, s: Severity)
    requires s !in of
    ensures Sum(m, of + {s}) == Sum(m, of) + Count(m, s)
  {
    PartOneMore(m, of, s, Undefined);
    PartOneMore(m, of, s, Info);
    PartOneMore(m, of, s, Suspect);
    PartOneMore(m, of, s, Low);
    PartOneMore(m, of, s, Medium);
    PartOneMore(m, of, s, High);
    PartOneMore(m, of, s, Critical);
  }

  class Grouper {
    var groups: map<string, Group>
    var order: seq<string>
    var grouped: map<Severity, nat>
    var raw: map<Severity, nat>

    ghost function Now(): State
      reads this
    {
      State(groups, order, grouped, raw)
    }

    constructor ()
      ensures Now() == START
    {
      groups, order, grouped, raw := map[], [], map[], map[];
    }

    method Observe(f: Finding) returns (show: bool)
      modifies this
      ensures Now() == Next(old(Now()), f) && show == Shows(old(Now()), f)
    {
      raw := Bump(raw, f.severity);
      if f.key.None? {
        grouped := Bump(grouped, f.severity);
        return true;
      }
      var k := f.key.value;
      var seen := k in groups;
      if !seen {
        groups := groups[k := Group(f.name, f.severity, [], 0)];
        order := order + [k];
        grouped := Bump(grouped, f.severity);
      }
      var g := groups[k];
      g := g.(count := g.count + 1);
      if f.url != "" && |g.sample| < MAX_SAMPLE {
        var sample := AppendUniqueStr(g.sample, f.url);
        g := g.(sample := sample);
      }
      groups := groups[k := g];
      show := !seen;
    }

    method SummaryCounts() returns (out: map<Severity, nat>)
      ensures out == grouped
    {
      out := map[];
      var todo := grouped.Keys;
      while todo != {}
        invariant todo <= grouped.Keys && out.Keys == grouped.Keys - todo
        invariant forall s :: s in out ==> out[s] == grouped[s]
        decreases todo
      {
        var s :| s in todo;
        out, todo := out[s := grouped[s]], todo - {s};
      }
    }

    method RawTotal() returns (total: nat)
      ensures total == Total(raw)
    {
      total := 0;
      var todo := raw.Keys;
      while todo != {}
        invariant todo <= raw.Keys && total == Sum(raw, raw.Keys - todo)
        decreases todo
      {
        var s :| s in todo;
        SumOneMore(raw, raw.Keys - todo, s);
        assert raw.Keys - todo + {s} == raw.Keys - (todo - {s});
        total, todo := total + raw[s], todo - {s};
      }
      assert raw.Keys - todo == raw.Keys;
    }

    // The groups shown in the rollup, and how many more collapsed something.
    method RollupLines() returns (lines: seq<string>, more: nat)
      ensures var all := Collapsed(groups, order);
        lines == all[..if |all| <= MAX_LINES then |all| else MAX_LINES] && |lines| + more == |all|
    {
      lines := [];
      var collapsed := 0;
      for i := 0 to |order|
        invariant var all := Collapsed(groups, order[..i]);
          collapsed == |all| && lines == all[..if |all| <= MAX_LINES then |all| else MAX_LINES]
      {
        assert order[..i + 1][..i] == order[..i];
        if order[i] !in groups || groups[order[i]].count <= 1 {
          continue;
        }
        collapsed := collapsed + 1;
        if |lines| < MAX_LINES {
          lines := lines + [order[i]];
        }
      }
      assert order[..|order|] == order;
      more := collapsed - |lines|;
    }
  }

  lemma BumpAddsOne(m: map<Severity, nat>, s: Severity)
    ensures Total(Bump(m, s)) == Total(m) + 1
  {
    var b := Bump(m, s);
    forall t ensures Count(b, t) == Count(m, t) + if t == s then 1 else 0 {
    }
  }

  // ------------------------------------------------- any number of findings

  function Run(fs: seq<Finding>): State {
    if fs == [] then START else Next(Run(fs[..|fs| - 1]), fs[|fs| - 1])
  }

  // How many of the findings get a console line.
  function Shown(fs: seq<Finding>): nat {
    if fs == [] then 0
    else Shown(fs[..|fs| - 1]) + if Shows(Run(fs[..|fs| - 1]), fs[|fs| - 1]) then 1 else 0
  }

  function Ungroupable(fs: seq<Finding>): nat {
    if fs == [] then 0 else Ungroupable(fs[..|fs| - 1]) + if fs[|fs| - 1].key.None? then 1 else 0
  }

  function OfSeverity(fs: seq<Finding>, s: Severity): nat {
    if fs == [] then 0 else OfSeverity(fs[..|fs| - 1], s) + if fs[|fs| - 1].severity == s then 1 else 0
  }

  function OfKey(fs: seq<Finding>, k: string): nat {
    if fs == [] then 0 else OfKey(fs[..|fs| - 1], k) + if fs[|fs| - 1].key == Some(k) then 1 else 0
  }

  // The keys of the findings, each where it is first met.
  function Keys(fs: seq<Finding>): seq<string> {
    if fs == [] then []
    else
      var before := Keys(fs[..|fs| - 1]);
      match fs[|fs| - 1].key
      case None => before
      case Some(k) => AppendUnique(before, k)
  }

  // The distinct, non-empty URLs of one key's findings, each where it is first met.
  function Urls(fs: seq<Finding>, k: string): seq<string> {
    if fs == [] then []
    else
      var before := Urls(fs[..|fs| - 1], k);
      var f := fs[|fs| - 1];
      if f.key == Some(k) && f.url != "" then AppendUnique(before, f.url) else before
  }

  // Groups stand for the keys met, in the order met, and count their findings.
  lemma {:induction false} GroupsAreTheKeys(fs: seq<Finding>)
    ensures Run(fs).order == Keys(fs) && Distinct(Keys(fs))
    ensures forall k :: k in Run(fs).groups <==> k in Keys(fs)
    ensures forall k :: k in Run(fs).groups ==> Run(fs).groups[k].count == OfKey(fs, k)
    ensures forall k :: k !in Run(fs).groups ==> OfKey(fs, k) == 0
  {
    if fs != [] {
      var init, f := fs[..|fs| - 1], fs[|fs| - 1];
      GroupsAreTheKeys(init);
      if f.key.Some? && f.key.value !in Keys(init) { DistinctSnoc(Keys(init), f.key.value); }
    }
  }

  lemma {:induction false} NoGroupNoUrls(fs: seq<Finding>, k: string)
    requires k !in Run(fs).groups
    ensures Urls(fs, k) == []
  {
    if fs != [] { NoGroupNoUrls(fs[..|fs| - 1], k); }
  }

  // A group's sample is the first of its distinct URLs, up to the cap.
  lemma {:induction false} SampleIsTheFirstUrls(fs: seq<Finding>, k: string)
    requires k in Run(fs).groups
    ensures var all := Urls(fs, k); Run(fs).groups[k].sample == all[..if |all| <= MAX_SAMPLE then |all| else MAX_SAMPLE]
    ensures Distinct(Urls(fs, k)) && "" !in Urls(fs, k)
  {
    var init, f := fs[..|fs| - 1], fs[|fs| - 1];
    if k in Run(init).groups {
      SampleIsTheFirstUrls(init, k);
    } else {
      NoGroupNoUrls(init, k);
    }
    if f.url !in Urls(init, k) { DistinctSnoc(Urls(init, k), f.url); }
  }

  // Every finding is counted once: raw tallies count all of them, by severity,
  // and the grouped tallies exactly those that got a line of their own, one for
  // each group and one for each ungroupable finding.
  lemma {:induction false} TalliesAddUp(fs: seq<Finding>)
    ensures Total(Run(fs).raw) == |fs|
    ensures Total(Run(fs).grouped) == Shown(fs) == |Run(fs).order| + Ungroupable(fs)
  {
    if fs != [] {
      var init, f := fs[..|fs| - 1], fs[|fs| - 1];
      TalliesAddUp(init);
      BumpAddsOne(Run(init).raw, f.severity);
      BumpAddsOne(Run(init).grouped, f.severity);
    }
  }

  function UngroupableOf(fs: seq<Finding>, s: Severity): nat {
    if fs == [] then 0
    else UngroupableOf(fs[..|fs| - 1], s) + if fs[|fs| - 1].key.None? && fs[|fs| - 1].severity == s then 1 else 0
  }

  // How many of the groups have this severity, the one of their first finding.
  function GroupsOf(groups: map<string, Group>, order: seq<string>, s: Severity): nat {
    if order == [] then 0
    else
      var last := order[|order| - 1];
      GroupsOf(groups, order[..|order| - 1], s) + if last in groups && groups[last].severity == s then 1 else 0
  }

  lemma {:induction false} SameSeverities(a: map<string, Group>, b: map<string, Group>, order: seq<string>, s: Severity)
    requires forall k :: k in order ==> k in a && k in b && a[k].severity == b[k].severity
    ensures GroupsOf(a, order, s) == GroupsOf(b, order, s)
  {
    if order != [] { SameSeverities(a, b, order[..|order| - 1], s); }
  }

  lemma {:induction false} RawCountsBySeverity(fs: seq<Finding>, s: Severity)
    ensures Count(Run(fs).raw, s) == OfSeverity(fs, s)
  {
    if fs != [] { RawCountsBySeverity(fs[..|fs| - 1], s); }
  }

  // One finding adds its severity to the groups exactly when it opens one.
  lemma GroupsAfter(was: State, f: Finding, s: Severity)
    requires forall k :: k in was.order ==> k in was.groups
    ensures GroupsOf(Next(was, f).groups, Next(was, f).order, s) ==
      GroupsOf(was.groups, was.order, s) +
      if f.key.Some? && f.key.value !in was.groups && f.severity == s then 1 else 0
  {
    if f.key.Some? {
      var now := Next(was, f);
      SameSeverities(was.groups, now.groups, was.order, s);
      if f.key.value !in was.groups { assert now.order[..|was.order|] == was.order; }
    }
  }

  // Severity by severity: the raw tally is the number of findings, and the
  // grouped one the number of groups plus the number of ungroupable findings.
  lemma {:induction false} TalliesBySeverity(fs: seq<Finding>, s: Severity)
    ensures Count(Run(fs).raw, s) == OfSeverity(fs, s)
    ensures Count(Run(fs).grouped, s) == GroupsOf(Run(fs).groups, Run(fs).order, s) + UngroupableOf(fs, s)
  {
    RawCountsBySeverity(fs, s);
    if fs != [] {
      var init, f := fs[..|fs| - 1], fs[|fs| - 1];
      TalliesBySeverity(init, s);
      GroupsAreTheKeys(init);
      GroupsAfter(Run(init), f, s);
    }
  }

  // The counts of the groups and the ungroupable findings are all findings.
  function Counted(groups: map<string, Group>, order: seq<string>): nat {
    if order == [] then 0
    else Counted(groups, order[..|order| - 1]) + if order[|order| - 1] in groups then groups[order[|order| - 1]].count
      else 0
  }

  lemma {:induction false} CountedAfter(groups: map<string, Group>, order: seq<string>, k: string, g: Group)
    requires Distinct(order) && g.count == 1 + if k in groups then groups[k].count else 0
    ensures Counted(groups[k := g], order) == Counted(groups, order) + if k in order then 1 else 0
  {
    if order != [] {
      var init, last := order[..|order| - 1], order[|order| - 1];
      CountedAfter(groups, init, k, g);
      assert order == init + [last];
      assert forall x :: x in order <==> x in init || x == last;
    }
  }

  lemma {:induction false} EveryFindingIsInOnePlace(fs: seq<Finding>)
    ensures Counted(Run(fs).groups, Run(fs).order) + Ungroupable(fs) == |fs|
  {
    if fs != [] {
      var init, f := fs[..|fs| - 1], fs[|fs| - 1];
      EveryFindingIsInOnePlace(init);
      GroupsAreTheKeys(init);
      if f.key.Some? {
        var k, s := f.key.value, Run(init);
        CountedAfter(s.groups, s.order, k, Run(fs).groups[k]);
        if k !in s.groups { assert (s.order + [k])[..|s.order|] == s.order; }
      }
    }
  }

  lemma {:induction false} CollapsedIn(groups: map<string, Group>, order: seq<string>)
    requires Distinct(order)
    ensures Distinct(Collapsed(groups, order))
    ensures forall k :: k in Collapsed(groups, order) <==> k in order && k in groups && groups[k].count > 1
  {
    if order != [] {
      var init, last := order[..|order| - 1], order[|order| - 1];
      CollapsedIn(groups, init);
      assert order == init + [last];
      assert forall x :: x in order <==> x in init || x == last;
      if last in groups && groups[last].count > 1 { DistinctSnoc(Collapsed(groups, init), last); }
    }
  }

  // The rollup, with the number it leaves out, stands for exactly the keys met
  // more than once.
  lemma RollupIsTheRepeats(fs: seq<Finding>)
    ensures var all := Collapsed(Run(fs).groups, Run(fs).order);
      Distinct(all) && forall k :: k in all <==> OfKey(fs, k) > 1
  {
    GroupsAreTheKeys(fs);
    CollapsedIn(Run(fs).groups, Run(fs).order);
  }
}
