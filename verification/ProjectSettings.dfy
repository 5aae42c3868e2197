/**
  What a project runs under: the global settings with its overlay laid over, and
  how writing one key of the overlay shows in it.
*/
module ProjectSettings {
  import opened Common
  import opened SettingsTree
  import opened SettingsSchema
  import opened ProfileLayering
  import PO = ProjectOverlay

  // Settings of the declared shape.
  predicate Global(schema: Schema, global: Node) {
    SettingsShape(schema) && Conforms(schema.root, global) && HasSections(schema, global)
  }

  // The two keys of the strategy section a profile has.
  function StrategyKeys(schema: Schema): Shape {
    Record(map[schema.choice := Scalar(Text), schema.heuristics := Scalar(Text)])
  }

  // The document loads and is laid over to its end: it is a map or nothing, and
  // what it says under the strategy and under every section decodes.
  predicate Loads(fits: Fits, schema: Schema, doc: Node)
    requires SettingsShape(schema)
  {
    && (doc.Map? || doc.Null?)
    && (doc.Map? && schema.strategy in doc.m ==> Decodes(fits, StrategyKeys(schema), doc.m[schema.strategy]))
    && FirstBad(fits, schema, Load(schema, doc).raw, 0) == |schema.sections|
  }

  function Effective(fits: Fits, schema: Schema, global: Node, doc: Node): (r: Node)
    requires SettingsShape(schema) && HasSections(schema, global)
  {
    Applied(fits, schema, global, Load(schema, doc))
  }

  // Each section is laid over on its own, whatever the order.
  lemma {:induction false} SectionOnItsOwn(fits: Fits, schema: Schema, settings: Node, raw: map<string, Node>, n: nat,
      k: string)
    requires SettingsShape(schema) && HasSections(schema, settings) && n <= |schema.sections| && k in settings.m
    ensures Overlaid(fits, schema, settings, raw, n).m[k] ==
            if k in schema.sections[..n] && k in raw then Layer(fits, schema.root.fields[k], settings.m[k], raw[k])
              else settings.m[k]
  {
    if n > 0 {
      SectionOnItsOwn(fits, schema, settings, raw, n - 1, k);
      assert schema.sections[..n] == schema.sections[..n - 1] + [schema.sections[n - 1]];
      if k in schema.sections[..n - 1] {
        var i :| 0 <= i < n - 1 && schema.sections[i] == k;
        assert schema.sections[i] != schema.sections[n - 1];
      }
    }
  }

  // The section at index k is reached: none before it that is there fails to decode.
  ghost predicate Reached(fits: Fits, schema: Schema, raw: map<string, Node>, k: nat)
    requires SettingsShape(schema) && k < |schema.sections|
  {
    forall j :: 0 <= j < k && schema.sections[j] in raw ==>
      Decodes(fits, schema.root.fields[schema.sections[j]], raw[schema.sections[j]])
  }

  // What applying a profile makes of one section: layered over when it is there
  // and every section before it decodes, the one that does not included; those
  // behind that one stay as they were, and so does everything else but the
  // strategy.
  lemma SectionIsAppliedIff(fits: Fits, schema: Schema, settings: Node, profile: Profile, k: nat)
    requires SettingsShape(schema) && HasSections(schema, settings) && k < |schema.sections|
    ensures var key, after := schema.sections[k], Applied(fits, schema, settings, profile);
      && after.Map? && key in after.m && key in settings.m
      && after.m[key] ==
         if key in profile.raw && Reached(fits, schema, profile.raw, k) then
           Layer(fits, schema.root.fields[key], settings.m[key], profile.raw[key])
         else settings.m[key]
  {
    var key, strategic := schema.sections[k], PickStrategy(schema, settings, profile.strategy);
    var bad := FirstBad(fits, schema, profile.raw, 0);
    var n := if bad < |schema.sections| then bad + 1 else bad;
    assert key in settings.m && strategic.m[key] == settings.m[key];
    SectionOnItsOwn(fits, schema, strategic, profile.raw, n, key);
    if k < n {
      assert schema.sections[..n][k] == key;
    } else {
      assert forall i :: 0 <= i < n ==> schema.sections[i] != key;
    }
    assert Reached(fits, schema, profile.raw, k) <==> k <= bad;
  }

  lemma OthersAreLeftAlone(fits: Fits, schema: Schema, settings: Node, profile: Profile, key: string)
    requires SettingsShape(schema) && HasSections(schema, settings)
    requires key in settings.m && key !in schema.sections && key != schema.strategy
    ensures var after := Applied(fits, schema, settings, profile);
      after.Map? && key in after.m && after.m[key] == settings.m[key]
  {
    var bad := FirstBad(fits, schema, profile.raw, 0);
    var n := if bad < |schema.sections| then bad + 1 else bad;
    SectionOnItsOwn(fits, schema, PickStrategy(schema, settings, profile.strategy), profile.raw, n, key);
    assert key !in schema.sections[..n];
  }

  // What stands under a top-level key: a section as the overlay layers it, the
  // strategy as the overlay picks it, anything else as it was.
  function Top(fits: Fits, schema: Schema, global: Node, doc: Node, k: string): Node
    requires Global(schema, global) && k in global.m
  {
    if k == schema.strategy then PickStrategy(schema, global, Load(schema, doc).strategy).m[k]
    else if k in schema.sections && doc.Map? && k in doc.m then
      Layer(fits, schema.root.fields[k], global.m[k], doc.m[k])
    else global.m[k]
  }

  lemma TopLevel(fits: Fits, schema: Schema, global: Node, doc: Node, path: Path)
    requires Global(schema, global) && Loads(fits, schema, doc) && path != []
    ensures Lookup(Effective(fits, schema, global, doc), path)
            == if path[0] in global.m then Lookup(Top(fits, schema, global, doc, path[0]), path[1..]) else None
  {
    var raw := Load(schema, doc).raw;
    var strategic := PickStrategy(schema, global, Load(schema, doc).strategy);
    assert strategic.m.Keys == global.m.Keys;
    if path[0] in global.m {
      SectionOnItsOwn(fits, schema, strategic, raw, |schema.sections|, path[0]);
      assert schema.sections[..|schema.sections|] == schema.sections;
    }
  }

  // What the overlay picks for one strategy key: empty when it picks nothing.
  function Picked(schema: Schema, doc: Node, key: string): string {
    if doc.Map? && schema.strategy in doc.m && doc.m[schema.strategy].Map? then TextAt(doc.m[schema.strategy], key)
    else ""
  }

  lemma PickSets(schema: Schema, settings: Node, key: string, v: string)
    requires settings.Map? && schema.strategy in settings.m && settings.m[schema.strategy].Map?
    requires key in settings.m[schema.strategy].m
    ensures Pick(schema, settings, key, v).m[schema.strategy] ==
            if v == "" then settings.m[schema.strategy] else Map(settings.m[schema.strategy].m[key := Leaf(v)])
  {
    if v != "" {
      var path := [schema.strategy, key];
      assert path[1..] == [key];
      assert Put(settings.m[schema.strategy], [key], Leaf(v)) == Map(settings.m[schema.strategy].m[key := Leaf(v)]);
    }
  }

  // The strategy section differs from the global one in the picked keys alone.
  lemma StrategyPicks(schema: Schema, global: Node, doc: Node, k: string)
    requires Global(schema, global)
    ensures global.Map? && schema.strategy in global.m
    ensures var was, now := global.m[schema.strategy],
      PickStrategy(schema, global, Load(schema, doc).strategy).m[schema.strategy];
      && was.Map? && now.Map? && (k in now.m <==> k in was.m)
      && (k in was.m ==> now.m[k] == if k in {schema.choice, schema.heuristics} && Picked(schema, doc, k) != "" then
         Leaf(Picked(schema, doc, k)) else was.m[k])
  {
    var first, second := schema.choice, schema.heuristics;
    assert Conforms(schema.root.fields[schema.strategy], global.m[schema.strategy]);
    if Load(schema, doc).strategy.Some? {
      PickSets(schema, global, first, Picked(schema, doc, first));
      PickSets(schema, Pick(schema, global, first, Picked(schema, doc, first)), second, Picked(schema, doc, second));
    }
  }

  // Below one key, two maps that agree on it read the same.
  lemma SameBelow(a: Node, b: Node, path: Path)
    requires a.Map? && b.Map? && path != [] && (path[0] in a.m <==> path[0] in b.m)
    requires path[0] in a.m ==> a.m[path[0]] == b.m[path[0]]
    ensures Lookup(a, path) == Lookup(b, path)
  {
  }

  // A key the overlay does not set follows the global settings.
  lemma UnsetKeyFollowsGlobal(fits: Fits, schema: Schema, global: Node, doc: Node, path: Path)
    requires Global(schema, global) && Loads(fits, schema, doc)
    requires Unset(doc, path) && Lookup(global, path).Some?
    ensures Lookup(Effective(fits, schema, global, doc), path) == Lookup(global, path)
  {
    var k := path[0];
    TopLevel(fits, schema, global, doc, path);
    if k in schema.sections {
      if k in doc.m { UnsetKeepsItsValue(fits, schema.root.fields[k], global.m[k], doc.m[k], path[1..]); }
    } else if k == schema.strategy && k in doc.m {
      StrategyPicks(schema, global, doc, path[1]);
      assert Unset(doc.m[k], path[1..]) && path[1..][0] == path[1];
      assert path[1] in doc.m[k].m ==> Unset(doc.m[k].m[path[1]], path[1..][1..]);
      assert Picked(schema, doc, path[1]) == "";
      SameBelow(PickStrategy(schema, global, Load(schema, doc).strategy).m[k], global.m[k], path[1..]);
    }
  }

  // path names a declared setting.
  predicate Setting(schema: Schema, path: Path) {
    path != [] && Resolve(schema.root, path).Some?
  }

  // A strategy key an overlay may change.
  predicate Pickable(schema: Schema, path: Path) {
    |path| == 2 && path[0] == schema.strategy && path[1] in {schema.choice, schema.heuristics}
  }

  // The keys an overlay can change.
  predicate Changeable(schema: Schema, path: Path)
    requires path != []
  {
    path[0] in schema.sections || path == [schema.strategy] || Pickable(schema, path)
  }

  // A strategy section written whole reads as written when it names every key
  // and gives none but a pickable one another value, and that a text.
  predicate PickedWhole(schema: Schema, was: Node, v: Node) {
    && was.Map? && v.Map? && v.m.Keys == was.m.Keys
    && forall k :: k in was.m ==>
         v.m[k] == was.m[k] || (k in {schema.choice, schema.heuristics} && v.m[k].Leaf? && v.m[k].text != "")
  }

  // When a value written under path is what a project reads there.
  predicate TakesEffect(schema: Schema, global: Node, path: Path, v: Node)
    requires Global(schema, global) && path != [] && path[0] in global.m
  {
    if path[0] in schema.sections then WrittenBelow(schema.root.fields[path[0]], global.m[path[0]], path[1..], v)
    else if path == [schema.strategy] then PickedWhole(schema, global.m[path[0]], v)
    else Lookup(global, path) == Some(v) || (Pickable(schema, path) && v.Leaf? && v.text != "")
  }

  lemma SettingIsBelowTopLevel(schema: Schema, path: Path)
    requires SettingsShape(schema) && Setting(schema, path)
    ensures path[0] in schema.root.fields &&
      Resolve(schema.root, path) == Resolve(schema.root.fields[path[0]], path[1..])
    ensures path[0] == schema.strategy && |path| > 1 && path[1] in {schema.choice, schema.heuristics} ==> |path| == 2
  {
    if path[0] == schema.strategy && |path| > 1 && path[1] in {schema.choice, schema.heuristics} {
      assert Resolve(schema.root.fields[path[0]], path[1..]) == Resolve(Scalar(Text), path[1..][1..]);
    }
  }

  lemma PutAtTop(doc: Node, path: Path, v: Node)
    requires doc.Map? && path != []
    ensures Put(doc, path, v).Map? && path[0] in Put(doc, path, v).m
    ensures Put(doc, path, v).m[path[0]] == Put(Child(doc, path[0]), path[1..], v)
  {
  }

  lemma SectionDecodes(fits: Fits, schema: Schema, doc: Node, k: string)
    requires SettingsShape(schema) && Loads(fits, schema, doc) && k in schema.sections && doc.Map? && k in doc.m
    ensures Decodes(fits, schema.root.fields[k], doc.m[k])
  {
    var i :| 0 <= i < |schema.sections| && schema.sections[i] == k;
    assert schema.sections[i] in Load(schema, doc).raw;
  }

  lemma WrittenStrategy(schema: Schema, global: Node, doc: Node, v: Node)
    requires Global(schema, global) && doc.Map? && schema.strategy in global.m
    ensures var now := PickStrategy(schema, global, Load(schema, Put(doc, [schema.strategy], v)).strategy);
      now.m[schema.strategy] == v <==> PickedWhole(schema, global.m[schema.strategy], v)
  {
    var after := Put(doc, [schema.strategy], v);
    PutAtTop(doc, [schema.strategy], v);
    assert [schema.strategy][1..] == [];
    var was := global.m[schema.strategy];
    var now := PickStrategy(schema, global, Load(schema, after).strategy).m[schema.strategy];
    forall k ensures was.Map? && now.Map? && (k in now.m <==> k in was.m)
      ensures k in was.m && v.Map? && k in v.m ==>
        (now.m[k] == v.m[k] <==>
         v.m[k] == was.m[k] || (k in {schema.choice, schema.heuristics} && v.m[k].Leaf? && v.m[k].text != ""))
    {
      StrategyPicks(schema, global, after, k);
    }
    assert now.m.Keys == was.m.Keys;
    if PickedWhole(schema, was, v) {
      forall k | k in now.m ensures now.m[k] == v.m[k] { assert k in was.m; }
      assert now.m == v.m;
    }
  }

  lemma WrittenStrategyKey(schema: Schema, global: Node, doc: Node, path: Path, v: Node)
    requires Global(schema, global) && doc.Map? && Setting(schema, path)
    requires path[0] == schema.strategy && schema.strategy in global.m && |path| > 1
    ensures Lookup(PickStrategy(schema, global, Load(schema, Put(doc, path, v)).strategy).m[path[0]], path[1..])
            == if Pickable(schema, path) && v.Leaf? && v.text != "" then Some(v)
              else Lookup(global.m[path[0]], path[1..])
  {
    var after := Put(doc, path, v);
    SettingIsBelowTopLevel(schema, path);
    var was, now := global.m[path[0]], PickStrategy(schema, global, Load(schema, after).strategy).m[path[0]];
    StrategyPicks(schema, global, after, path[1]);
    if path[1] in {schema.choice, schema.heuristics} {
      assert path[1..] == [path[1]];
      assert after.m[path[0]] == Map(Child(doc, path[0]).m[path[1] := v]) by {
        assert Put(Child(doc, path[0]), path[1..], v) == Map(Child(doc, path[0]).m[path[1] := v]);
      }
      assert Conforms(schema.root.fields[path[0]], was);
      assert Lookup(now, [path[1]]) == Some(now.m[path[1]]) && Lookup(was, [path[1]]) == Some(was.m[path[1]]);
    } else {
      SameBelow(now, was, path[1..]);
    }
  }

  // Any value written into the overlay under a declared key, null, list or map
  // included, is what the project reads there if and only if it takes effect as
  // above; where an overlay can change nothing, the global value stays.
  lemma WrittenKeyTakesEffectIff(fits: Fits, schema: Schema, global: Node, doc: Node, path: Path, v: Node)
    requires Global(schema, global) && doc.Map? && Setting(schema, path) && Loads(fits, schema, Put(doc, path, v))
    ensures path[0] in global.m
    ensures var r := Lookup(Effective(fits, schema, global, Put(doc, path, v)), path);
      && (r == Some(v) <==> TakesEffect(schema, global, path, v))
      && (!Changeable(schema, path) ==> r == Lookup(global, path))
  {
    SettingIsBelowTopLevel(schema, path);
    TopLevel(fits, schema, global, Put(doc, path, v), path);
    if path[0] in schema.sections {
      SectionDecodes(fits, schema, Put(doc, path, v), path[0]);
      PutAtTop(doc, path, v);
      SetTakesEffectIff(fits, schema.root.fields[path[0]], global.m[path[0]], Child(doc, path[0]), path[1..], v);
    } else if path == [schema.strategy] {
      WrittenStrategy(schema, global, doc, v);
    } else if path[0] == schema.strategy {
      WrittenStrategyKey(schema, global, doc, path, v);
    }
  }

  lemma StrategyKeepsOthers(schema: Schema, global: Node, doc: Node, path: Path, v: Node, q: Path)
    requires Global(schema, global) && doc.Map? && |path| > 1 && |q| > 1 && path[0] == q[0] == schema.strategy
    requires Clear(doc, path) && Apart(path[1..], q[1..])
    ensures Lookup(PickStrategy(schema, global, Load(schema, Put(doc, path, v)).strategy).m[q[0]], q[1..])
            == Lookup(PickStrategy(schema, global, Load(schema, doc).strategy).m[q[0]], q[1..])
  {
    var after := Put(doc, path, v);
    StrategyPicks(schema, global, doc, q[1]);
    StrategyPicks(schema, global, after, q[1]);
    assert after.m[q[0]] == Put(Child(doc, q[0]), path[1..], v);
    assert Picked(schema, after, q[1]) == Picked(schema, doc, q[1]) || |q| > 2;
  }

  lemma SectionKeepsOthers(fits: Fits, t: Shape, base: Node, doc: Node, path: Path, v: Node, q: Path)
    requires Layered(t) && Conforms(t, base) && doc.Map? && |path| > 1 && |q| > 1 && path[0] == q[0]
    requires Clear(doc, path) && Apart(path[1..], q[1..])
    requires Lookup(if path[0] in doc.m then Layer(fits, t, base, doc.m[path[0]]) else base, q[1..]).Some?
    ensures Lookup(Layer(fits, t, base, Put(doc, path, v).m[path[0]]), q[1..])
            == Lookup(if path[0] in doc.m then Layer(fits, t, base, doc.m[path[0]]) else base, q[1..])
  {
    if path[0] in doc.m {
      SiblingsKeepTheirValue(fits, t, base, doc.m[path[0]], path[1..], v, q[1..]);
    } else {
      UnsetKeepsItsValue(fits, t, base, EMPTY, q[1..]);
      SiblingsKeepTheirValue(fits, t, base, EMPTY, path[1..], v, q[1..]);
    }
  }

  lemma TopUndisturbed(fits: Fits, schema: Schema, global: Node, doc: Node, path: Path, v: Node, q: Path)
    requires Global(schema, global) && doc.Map? && path != [] && Clear(doc, path) && Apart(path, q) && q[0] in global.m
    requires Lookup(Top(fits, schema, global, doc, q[0]), q[1..]).Some?
    ensures Lookup(Top(fits, schema, global, Put(doc, path, v), q[0]), q[1..]) ==
      Lookup(Top(fits, schema, global, doc, q[0]), q[1..])
  {
    var k := q[0];
    if k == path[0] {
      ApartBelow(path, q);
      if k in schema.sections {
        SectionKeepsOthers(fits, schema.root.fields[k], global.m[k], doc, path, v, q);
      } else if k == schema.strategy {
        StrategyKeepsOthers(schema, global, doc, path, v, q);
      }
    } else if k == schema.strategy {
      assert Load(schema, Put(doc, path, v)).strategy == Load(schema, doc).strategy;
    }
  }

  // Writing one key changes what no other key reads.
  lemma OtherKeysAreUndisturbed(fits: Fits, schema: Schema, global: Node, doc: Node, path: Path, v: Node, q: Path)
    requires Global(schema, global) && doc.Map? && path != []
    requires Loads(fits, schema, doc) && Loads(fits, schema, Put(doc, path, v))
    requires Clear(doc, path) && Apart(path, q) && Lookup(Effective(fits, schema, global, doc), q).Some?
    ensures Lookup(Effective(fits, schema, global, Put(doc, path, v)), q) ==
      Lookup(Effective(fits, schema, global, doc), q)
  {
    TopLevel(fits, schema, global, doc, q);
    TopLevel(fits, schema, global, Put(doc, path, v), q);
    TopUndisturbed(fits, schema, global, doc, path, v, q);
  }

  // A project write that is accepted and names a declared setting is what the
  // project then reads there if and only if it takes effect as above. The keys of
  // the strategy section but two are stored and never take effect.
  lemma AcceptedWriteTakesEffectIff(fits: Fits, schema: Schema, key: Path, settings: Node, file: PO.File,
      global: Node, path: Path)
    requires Global(schema, global) && key != [] && PO.Verdict(false, schema, key, settings, file, true) == Ok(path)
    requires Setting(schema, path)
    requires Loads(fits, schema, Put(PO.Base(file).value, path, PO.ValueAt(settings, path)))
    ensures path[0] in global.m
    ensures var v := PO.ValueAt(settings, path);
      && var r := Lookup(Effective(fits, schema, global, Put(PO.Base(file).value, path, v)), path);
      && (r == Some(v) <==> TakesEffect(schema, global, path, v))
      && (path[0] == schema.strategy && |path| > 1 && !Pickable(schema, path) ==> r == Lookup(global, path))
  {
    WrittenKeyTakesEffectIff(fits, schema, global, PO.Base(file).value, path, PO.ValueAt(settings, path));
  }

  // ------------------------------------------- what the section check lets through

  // Marshalled settings: what a struct omits when it is empty is not there.
  predicate Shows(t: Shape, n: Node) {
    match t
    case Scalar(_) => n.Leaf?
    case Dynamic => true
    case Listing => n.List? || n.Null?
    case Table(e) => n.Null? || (n.Map? && forall k :: k in n.m ==> Shows(e, n.m[k]))
    case Record(fields) => n.Map? && n.m.Keys <= fields.Keys && forall k :: k in n.m ==> Shows(fields[k], n.m[k])
    case Pointer(to) => n.Null? || Shows(to, n)
  }

  // A key of this name can be declared below the type a path leads to.
  predicate Declares(t: Option<Shape>, name: string) {
    match t
    case Some(Record(fields)) => name in fields
    case Some(Table(_)) => true
    case _ => false
  }

  lemma {:induction false} ResolveLast(t: Shape, path: Path)
    requires path != []
    ensures Resolve(t, path).Some? <==> Declares(Resolve(t, Parent(path)), SettingsSchema.Last(path))
    decreases |path|
  {
    var s := Strip(t);
    if |path| > 1 {
      assert Parent(path)[0] == path[0] && Parent(path)[1..] == Parent(path[1..]);
      if s.Record? && path[0] in s.fields { ResolveLast(s.fields[path[0]], path[1..]); }
      if s.Table? { ResolveLast(s.element, path[1..]); }
    }
  }

  lemma {:induction false} StripShows(t: Shape, n: Node)
    requires Shows(t, n) && !n.Null?
    ensures Shows(Strip(t), n)
    decreases t
  {
    if t.Pointer? { StripShows(t.to, n); }
  }

  lemma {:induction false} StripLayered(t: Shape)
    requires Layered(t)
    ensures Layered(Strip(t))
    decreases t
  {
    if t.Pointer? { StripLayered(t.to); }
  }

  // What marshalled settings hold under a path is declared.
  lemma {:induction false} ShownIsDeclared(t: Shape, n: Node, path: Path)
    requires Layered(t) && Shows(t, n) && Lookup(n, path).Some?
    ensures Resolve(t, path).Some?
    decreases |path|
  {
    if path != [] {
      StripShows(t, n);
      StripLayered(t);
      var s := Strip(t);
      if s.Record? {
        ShownIsDeclared(s.fields[path[0]], n.m[path[0]], path[1..]);
      } else {
        assert s.Table? && Shows(s.element, n.m[path[0]]);
        ShownIsDeclared(s.element, n.m[path[0]], path[1..]);
      }
    }
  }

  lemma {:induction false} StripConforms(t: Shape, n: Node)
    requires Conforms(t, n) && !n.Null?
    ensures Conforms(Strip(t), n)
    decreases t
  {
    if t.Pointer? { StripConforms(t.to, n); }
  }

  // Settings that omit nothing hold a struct's keys wherever one is declared.
  lemma {:induction false} MapsAreFull(t: Shape, n: Node, path: Path)
    requires Layered(t) && Conforms(t, n) && Lookup(n, path).Some? && Lookup(n, path).value.Map?
    ensures match Resolve(t, path)
            case Some(Record(fields)) => Lookup(n, path).value.m.Keys == fields.Keys
            case Some(Table(_)) => true
            case _ => false
    decreases |path|
  {
    StripConforms(t, n);
    StripLayered(t);
    var s := Strip(t);
    if path != [] && s.Record? {
      MapsAreFull(s.fields[path[0]], n.m[path[0]], path[1..]);
    }
  }

  lemma HolderIsBelowTop(settings: Node, path: Path)
    requires |path| > 1 && PO.Holder(settings, path).Some?
    ensures settings.Map? && path[0] in settings.m
  {
    assert Parent(path)[0] == path[0];
  }

  // The map a key's last segment is an entry of is declared as one of free keys.
  predicate InTable(root: Shape, path: Path)
    requires path != []
  {
    match Resolve(root, Parent(path))
    case Some(Table(_)) => true
    case _ => false
  }

  // No value without a declared type can stand on the way.
  predicate Typed(schema: Schema, path: Path)
    requires schema.root.Record? && path != []
  {
    path[0] in schema.root.fields ==> Layered(schema.root.fields[path[0]])
  }

  // In settings that omit nothing, an accepted key below a top-level name is
  // declared exactly when it is in them, or in a map of free keys.
  lemma DeclaredIffShown(schema: Schema, settings: Node, path: Path)
    requires SettingsShape(schema) && Conforms(schema.root, settings)
    requires path != [] && PO.Holder(settings, path).Some? && Typed(schema, path)
    ensures Setting(schema, path) <==>
      InTable(schema.root, path) || SettingsSchema.Last(path) in PO.Holder(settings, path).value.m
  {
    ResolveLast(schema.root, path);
    if |path| > 1 {
      HolderIsBelowTop(settings, path);
      MapsAreFull(schema.root.fields[path[0]], settings.m[path[0]], Parent(path)[1..]);
    } else {
      assert path == [path[0]];
    }
  }

  // An accepted write names a declared setting if and only if it is not the lone
  // name of the untagged field, and the struct or map its other segments lead to
  // can have a key of its last name. Read off the settings: a key they hold is
  // one, and where they omit nothing and the key is not in a map of free keys, no
  // other is. One in a section that names none stores null.
  lemma AcceptedWriteNamesASettingIff(schema: Schema, key: Path, settings: Node, file: PO.File, path: Path)
    requires SettingsShape(schema) && Shows(schema.root, settings) && "raw" !in schema.root.fields
    requires key != [] && PO.Verdict(false, schema, key, settings, file, true) == Ok(path)
    ensures Setting(schema, path) <==>
      path != ["raw"] && (|path| == 1 || Declares(Resolve(schema.root, Parent(path)), SettingsSchema.Last(path)))
    ensures Typed(schema, path) && SettingsSchema.Last(path) in PO.Holder(settings, path).value.m ==>
      Setting(schema, path)
    ensures Typed(schema, path) && Conforms(schema.root, settings) && !InTable(schema.root, path) ==>
      (Setting(schema, path) <==> SettingsSchema.Last(path) in PO.Holder(settings, path).value.m)
    ensures !Setting(schema, path) && path[0] != schema.strategy ==> PO.ValueAt(settings, path) == Null
  {
    ResolveLast(schema.root, path);
    if |path| > 1 {
      HolderIsBelowTop(settings, path);
    } else {
      assert path == [path[0]];
    }
    PO.LookupLast(settings, path);
    if Typed(schema, path) && Conforms(schema.root, settings) { DeclaredIffShown(schema, settings, path); }
    if path[0] in schema.root.fields && Typed(schema, path) && Lookup(settings, path).Some? {
      ShownIsDeclared(schema.root.fields[path[0]], settings.m[path[0]], path[1..]);
    }
  }

  // Two such writes under the declared sections: both are accepted, and null is
  // what they store.
  lemma RawIsStored(root: Shape, settings: Node)
    requires settings.Map? && "raw" !in settings.m
    ensures PO.Verdict(false, Declared(root), ["raw"], settings, PO.Absent, true) == Ok(["raw"])
    ensures PO.ValueAt(settings, ["raw"]) == Null
  {
    assert Parent(["raw"]) == [];
  }

  lemma MissingKeyIsStored(root: Shape, settings: Node)
    requires settings.Map? && "scope" in settings.m && settings.m["scope"].Map? && "nosuch" !in settings.m["scope"].m
    ensures var key := ["scope", "nosuch"];
      && PO.Verdict(false, Declared(root), key, settings, PO.Absent, true) == Ok(key)
      && PO.ValueAt(settings, key) == Null
  {
    var key := ["scope", "nosuch"];
    var scope := settings.m["scope"];
    assert Parent(key) == ["scope"] && Parent(key)[1..] == [] && key[1..] == ["nosuch"];
    assert Lookup(settings, Parent(key)) == Lookup(scope, Parent(key)[1..]) == Some(scope);
    assert Lookup(settings, key) == Lookup(scope, key[1..]) == None;
    assert |"nosuch"| != |"add"| && |"nosuch"| != |"clear"|;
    assert Declared(root).sections[7] == "scope";
  }

  // A settings struct with these section names, the sections empty, and one
  // strategy key an overlay cannot change.
  function SmallRoot(names: Schema, other: string): Shape {
    Record((map k | k in names.sections :: Record(map[]))[names.strategy := Record(
      map[names.choice := Scalar(Text), names.heuristics := Scalar(Text), other := Scalar(Text)])])
  }

  function SmallSettings(names: Schema, other: string, value: string): Node {
    Map((map k | k in names.sections :: Map(map[]))[names.strategy := Map(
      map[names.choice := Leaf(""), names.heuristics := Leaf(""), other := Leaf(value)])])
  }

  lemma SmallSections(names: Schema, other: string, value: string, k: string)
    requires DistinctNames(names) && k in names.sections
    ensures k in SmallRoot(names, other).fields && SmallRoot(names, other).fields[k] == Record(map[])
    ensures k in SmallSettings(names, other, value).m && SmallSettings(names, other, value).m[k] == Map(map[])
  {
    assert k != names.strategy;
  }

  lemma SmallStrategy(names: Schema, other: string, value: string)
    requires DistinctNames(names) && other !in {names.choice, names.heuristics}
    ensures StrategyShape(names.(root := SmallRoot(names, other)))
    ensures Conforms(SmallRoot(names, other).fields[names.strategy],
      SmallSettings(names, other, value).m[names.strategy])
  {
  }

  lemma SmallShape(names: Schema, other: string, value: string)
    requires DistinctNames(names) && other !in {names.choice, names.heuristics}
    ensures Global(names.(root := SmallRoot(names, other)), SmallSettings(names, other, value))
  {
    var root, n := SmallRoot(names, other), SmallSettings(names, other, value);
    SmallStrategy(names, other, value);
    forall k | k in names.sections { SmallSections(names, other, value, k); }
    assert n.m.Keys == root.fields.Keys;
    forall k | k in root.fields ensures Conforms(root.fields[k], n.m[k]) {
      if k in names.sections { SmallSections(names, other, value, k); }
    }
  }

  lemma SmallKey(names: Schema, other: string, value: string)
    requires DistinctNames(names) && other !in {names.choice, names.heuristics}
    ensures var schema, key := names.(root := SmallRoot(names, other)), [names.strategy, other];
      && Setting(schema, key) && !Changeable(schema, key)
      && Lookup(SmallSettings(names, other, value), key) == Some(Leaf(value))
      && PO.Verdict(false, schema, key, SmallSettings(names, other, value), PO.Absent, true) == Ok(key)
  {
    var root, key := SmallRoot(names, other), [names.strategy, other];
    var section := root.fields[key[0]];
    assert key[1..] == [other] && key[1..][1..] == [] && Parent(key) == [key[0]] && Parent(key)[1..] == [];
    assert Resolve(section, key[1..]) == Resolve(section.fields[other], key[1..][1..]) == Some(Scalar(Text));
    assert Resolve(root, Parent(key)) == Resolve(section, Parent(key)[1..]) == Some(section);
    var n := SmallSettings(names, other, value);
    assert Lookup(n.m[names.strategy], key[1..]) == Lookup(Leaf(value), key[1..][1..]);
    assert Lookup(n, Parent(key)) == Lookup(n.m[names.strategy], Parent(key)[1..]);
  }

  lemma SmallWriteIsIgnored(fits: Fits, names: Schema, other: string, mine: string, theirs: string)
    requires DistinctNames(names) && other !in {names.choice, names.heuristics}
    ensures var schema, key := names.(root := SmallRoot(names, other)), [names.strategy, other];
      var global, settings := SmallSettings(names, other, theirs), SmallSettings(names, other, mine);
      && Global(schema, global)
      && PO.Verdict(false, schema, key, settings, PO.Absent, true) == Ok(key) && PO.ValueAt(settings, key) == Leaf(mine)
      && Lookup(Effective(fits, schema, global, Put(EMPTY, key, Leaf(mine))), key) == Some(Leaf(theirs))
  {
    var schema, key := names.(root := SmallRoot(names, other)), [names.strategy, other];
    SmallShape(names, other, theirs);
    SmallKey(names, other, mine);
    SmallKey(names, other, theirs);
    WrittenKeyTakesEffectIff(fits, schema, SmallSettings(names, other, theirs), EMPTY, key, Leaf(mine));
  }

  // One such write, under the declared sections: the profiles directory is
  // stored in the overlay, and the project still runs under the global one.
  lemma StoredAndIgnored(fits: Fits, mine: string, theirs: string)
    ensures var names, other := Declared(Dynamic), "profiles_dir";
      var schema, key := Declared(SmallRoot(names, other)), ["scanning_strategy", "profiles_dir"];
      var global, settings := SmallSettings(names, other, theirs), SmallSettings(names, other, mine);
      && Global(schema, global)
      && PO.Verdict(false, schema, key, settings, PO.Absent, true) == Ok(key) && PO.ValueAt(settings, key) == Leaf(mine)
      && Lookup(Effective(fits, schema, global, Put(EMPTY, key, Leaf(mine))), key) == Some(Leaf(theirs))
  {
    var names, other := Declared(Dynamic), "profiles_dir";
    assert other[0] == 'p' && names.choice[0] == 'd' && names.heuristics[0] == 'h';
    DeclaredNamesAreDistinct(Dynamic);
    SmallWriteIsIgnored(fits, names, other, mine, theirs);
  }
}
