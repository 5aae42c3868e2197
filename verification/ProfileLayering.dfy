/**
  Laying a profile or a project overlay over live settings, section by section.
*/
module ProfileLayering {
  import opened Common
  import opened SettingsTree
  import opened SettingsSchema

  type Fits = (Kind, string) -> bool

  // The value a freshly allocated variable of the type has.
  function Zero(t: Shape): Node {
    match t
    case Scalar(_) => Leaf("")
    case Record(fields) => Map(map k | k in fields :: Zero(fields[k]))
    case _ => Null
  }

  // n is a value of the declared type.
  predicate Conforms(t: Shape, n: Node) {
    match t
    case Scalar(_) => n.Leaf?
    case Dynamic => true
    case Listing => n.List? || n.Null?
    case Table(_) => n.Null? || (n.Map? && forall k :: k in n.m ==> !n.m[k].Map?)
    case Record(fields) => n.Map? && n.m.Keys == fields.Keys && forall k :: k in fields ==> Conforms(fields[k], n.m[k])
    case Pointer(to) => n.Null? || Conforms(to, n)
  }

  // The entries of a map, none when it is not allocated.
  function Held(base: Node): map<string, Node> {
    if base.Map? then base.m else map[]
  }

  // What stands under k once n is decoded there: a null scalar keeps the entry
  // that is there, or makes an empty one.
  function Entry(e: Shape, was: map<string, Node>, k: string, n: Node): Node {
    if e.Scalar? && n.Null? then if k in was then was[k] else Leaf("") else n
  }

  function Entries(e: Shape, was: map<string, Node>, m: map<string, Node>): (r: map<string, Node>)
    ensures r.Keys == m.Keys
  {
    map k | k in m :: Entry(e, was, k, m[k])
  }

  // Decoding over onto a live value: an absent key, or a null scalar or struct,
  // leaves what is there; a null list, map or pointer empties it; map entries
  // are merged in.
  function Layer(fits: Fits, t: Shape, base: Node, over: Node): Node
    decreases t
  {
    match t
    case Scalar(kind) => if over.Leaf? && fits(kind, over.text) then over else base
    case Dynamic => over
    case Listing => if over.Null? || over.List? then over else base
    case Table(e) =>
      if over.Null? then Null
      else if over.Map? then Map(Held(base) + Entries(e, Held(base), over.m))
      else base
    case Record(fields) =>
      if base.Map? && over.Map? then
        Map(map k | k in base.m :: if k in over.m && k in fields then Layer(fits, fields[k], base.m[k], over.m[k])
          else base.m[k])
      else base
    case Pointer(to) => if over.Null? then Null else Layer(fits, to, if base.Null? then Zero(to) else base, over)
  }

  // over decodes without a type error.
  predicate Decodes(fits: Fits, t: Shape, over: Node) {
    match t
    case Scalar(kind) => over.Null? || (over.Leaf? && fits(kind, over.text))
    case Dynamic => true
    case Listing => over.Null? || over.List?
    case Table(e) => over.Null? || (over.Map? && forall k :: k in over.m ==> Decodes(fits, e, over.m[k]))
    case Record(fields) => over.Null?
        || (over.Map? && forall k :: k in over.m && k in fields ==> Decodes(fits, fields[k], over.m[k]))
    case Pointer(to) => Decodes(fits, to, over)
  }

  // The overlay says nothing about path: nothing but maps on the way, and then
  // a key that is not there.
  predicate Unset(over: Node, path: Path) {
    path != [] && over.Map? && (path[0] !in over.m || Unset(over.m[path[0]], path[1..]))
  }

  lemma {:induction false} ZeroConforms(t: Shape)
    ensures Conforms(t, Zero(t))
  {
    if t.Record? {
      forall k | k in t.fields ensures Conforms(t.fields[k], Zero(t).m[k]) { ZeroConforms(t.fields[k]); }
    }
  }

  // A key the overlay does not set keeps its value.
  lemma {:induction false} UnsetKeepsItsValue(fits: Fits, t: Shape, base: Node, over: Node, path: Path)
    requires Layered(t) && Conforms(t, base) && Unset(over, path) && Lookup(base, path).Some?
    ensures Lookup(Layer(fits, t, base, over), path) == Lookup(base, path)
    decreases t
  {
    match t
    case Record(fields) =>
      var k := path[0];
      if k in over.m { UnsetKeepsItsValue(fits, fields[k], base.m[k], over.m[k], path[1..]); }
    case Pointer(to) => UnsetKeepsItsValue(fits, to, base, over, path);
    case _ =>
  }

  // A value that can stand at a setting of type t.
  predicate Settable(fits: Fits, t: Shape, v: Node) {
    (t.Scalar? && v.Leaf? && fits(t.kind, v.text)) || (t.Listing? && v.List?)
  }

  // A key the overlay sets reads as it was set.
  lemma {:induction false} SetTakesEffect(fits: Fits, t: Shape, base: Node, over: Node, path: Path, v: Node)
    requires Layered(t) && Conforms(t, base) && (path != [] ==> over.Map?)
    requires Resolve(t, path).Some? && Settable(fits, Resolve(t, path).value, v)
    ensures Lookup(Layer(fits, t, base, if path == [] then v else Put(over, path, v)), path) == Some(v)
    decreases t, path
  {
    match t
    case Pointer(to) =>
      ZeroConforms(to);
      SetTakesEffect(fits, to, if base.Null? then Zero(to) else base, over, path, v);
    case Record(fields) =>
      var k := path[0];
      SetTakesEffect(fits, fields[k], base.m[k], Child(over, k), path[1..], v);
    case Table(e) =>
      PutReadsBack(over, path, v);
    case _ =>
  }

  lemma TableSibling(fits: Fits, t: Shape, base: Node, over: Node, path: Path, v: Node, q: Path)
    requires t.Table? && Conforms(t, base) && over.Map? && path != [] && Clear(over, path) && Apart(path, q)
    requires Lookup(Layer(fits, t, base, over), q).Some?
    ensures Lookup(Layer(fits, t, base, Put(over, path, v)), q) == Lookup(Layer(fits, t, base, over), q)
  {
    PutLeavesTheRest(over, path, v, q);
    if q[0] == path[0] {
      ApartBelow(path, q);
    }
  }

  // Setting a key leaves every other key of the layered result as it was,
  // unless the overlay held a plain value where the key needs a map.
  lemma {:induction false} SiblingsKeepTheirValue(fits: Fits, t: Shape, base: Node, over: Node, path: Path, v: Node,
      q: Path)
    requires Layered(t) && Conforms(t, base) && over.Map? && path != [] && Clear(over, path) && Apart(path, q)
    requires Lookup(Layer(fits, t, base, over), q).Some?
    ensures Lookup(Layer(fits, t, base, Put(over, path, v)), q) == Lookup(Layer(fits, t, base, over), q)
    decreases t
  {
    match t
    case Pointer(to) =>
      ZeroConforms(to);
      SiblingsKeepTheirValue(fits, to, if base.Null? then Zero(to) else base, over, path, v, q);
    case Record(fields) =>
      var k := q[0];
      if k == path[0] && k in fields {
        ApartBelow(path, q);
        var below := Child(over, k);
        if k in over.m {
          SiblingsKeepTheirValue(fits, fields[k], base.m[k], below, path[1..], v, q[1..]);
        } else {
          assert Unset(EMPTY, q[1..]);
          UnsetKeepsItsValue(fits, fields[k], base.m[k], EMPTY, q[1..]);
          SiblingsKeepTheirValue(fits, fields[k], base.m[k], EMPTY, path[1..], v, q[1..]);
        }
      }
    case Table(e) => TableSibling(fits, t, base, over, path, v, q);
    case _ =>
  }

  // Entry by entry, what laying a map over a map-valued setting leaves: an entry it
  // does not name stays, a null for a scalar keeps the entry or makes an empty one,
  // and any other value replaces it.
  lemma MergedEntry(fits: Fits, t: Shape, base: Node, over: Node, k: string)
    requires t.Table? && (base.Null? || base.Map?) && over.Map?
    ensures var r, had := Layer(fits, t, base, over), base.Map? && k in base.m;
      && r.Map? && (k in r.m <==> had || k in over.m)
      && (k !in over.m && had ==> r.m[k] == base.m[k])
      && (k in over.m && !(over.m[k].Null? && t.element.Scalar?) ==> r.m[k] == over.m[k])
      && (k in over.m && over.m[k].Null? && t.element.Scalar? ==> r.m[k] == if had then base.m[k] else Leaf(""))
  {
  }

  // ------------------------------------------------- what decodes

  // A value no variable of the type takes; null decodes into any.
  predicate Mistyped(fits: Fits, t: Shape, n: Node) {
    match t
    case Scalar(kind) => !n.Null? && !(n.Leaf? && fits(kind, n.text))
    case Listing => !n.Null? && !n.List?
    case Table(_) => !n.Null? && !n.Map?
    case Record(_) => !n.Null? && !n.Map?
    case _ => false
  }

  // The document has a mistyped value at the path, through declared keys only.
  predicate MistypedAt(fits: Fits, t: Shape, n: Node, path: Path)
    decreases |path|
  {
    var s := Strip(t);
    if path == [] then Mistyped(fits, s, n)
    else if !n.Map? || path[0] !in n.m then false
    else
      match s
      case Record(fields) => path[0] in fields && MistypedAt(fits, fields[path[0]], n.m[path[0]], path[1..])
      case Table(e) => MistypedAt(fits, e, n.m[path[0]], path[1..])
      case _ => false
  }

  lemma {:induction false} StripDecodes(fits: Fits, t: Shape, n: Node)
    ensures Decodes(fits, Strip(t), n) <==> Decodes(fits, t, n)
    decreases t
  {
    if t.Pointer? { StripDecodes(fits, t.to, n); }
  }

  lemma {:induction false} NothingMistyped(fits: Fits, t: Shape, n: Node, path: Path)
    requires Decodes(fits, t, n)
    ensures !MistypedAt(fits, t, n, path)
    decreases |path|
  {
    StripDecodes(fits, t, n);
    var s := Strip(t);
    if path != [] && n.Map? && path[0] in n.m {
      if s.Record? && path[0] in s.fields {
        NothingMistyped(fits, s.fields[path[0]], n.m[path[0]], path[1..]);
      } else if s.Table? {
        NothingMistyped(fits, s.element, n.m[path[0]], path[1..]);
      }
    }
  }

  lemma MistypedBelow(fits: Fits, t: Shape, below: Shape, n: Node, k: string, rest: Path)
    requires n.Map? && k in n.m && MistypedAt(fits, below, n.m[k], rest)
    requires t == Table(below) || (t.Record? && k in t.fields && t.fields[k] == below)
    ensures MistypedAt(fits, t, n, [k] + rest)
  {
    assert ([k] + rest)[1..] == rest;
  }

  lemma {:induction false} SomethingMistyped(fits: Fits, t: Shape, n: Node) returns (path: Path)
    requires !Decodes(fits, t, n)
    ensures MistypedAt(fits, t, n, path)
    decreases t
  {
    path := [];
    if t.Pointer? {
      path := SomethingMistyped(fits, t.to, n);
      assert Strip(t) == Strip(t.to);
    } else if t.Table? && n.Map? {
      var k :| k in n.m && !Decodes(fits, t.element, n.m[k]);
      var rest := SomethingMistyped(fits, t.element, n.m[k]);
      MistypedBelow(fits, t, t.element, n, k, rest);
      path := [k] + rest;
    } else if t.Record? && n.Map? {
      var k :| k in n.m && k in t.fields && !Decodes(fits, t.fields[k], n.m[k]);
      var rest := SomethingMistyped(fits, t.fields[k], n.m[k]);
      MistypedBelow(fits, t, t.fields[k], n, k, rest);
      path := [k] + rest;
    } else {
      assert Mistyped(fits, t, n) && Strip(t) == t;
    }
  }

  predicate IsMistyped(fits: Fits, t: Shape, n: Node, path: Path) {
    MistypedAt(fits, t, n, path)
  }

  // Some value under a declared key is mistyped.
  ghost predicate HasMistyped(fits: Fits, t: Shape, n: Node) {
    exists path :: IsMistyped(fits, t, n, path)
  }

  // A document decodes exactly when there is none.
  lemma DecodesIffNothingMistyped(fits: Fits, t: Shape, n: Node)
    ensures Decodes(fits, t, n) <==> !HasMistyped(fits, t, n)
  {
    if !Decodes(fits, t, n) {
      var path := SomethingMistyped(fits, t, n);
      assert IsMistyped(fits, t, n, path);
    } else {
      forall path ensures !IsMistyped(fits, t, n, path) { NothingMistyped(fits, t, n, path); }
    }
  }

  // A map-valued setting written as a whole is merged, so it reads as written
  // exactly when it names every entry that was there, and no null stands for a
  // scalar: under such a null the old entry stays, or an empty one appears.
  lemma WholeMapIsMerged(fits: Fits, t: Shape, base: Node, v: Node)
    requires t.Table? && Conforms(t, base) && v.Map?
    ensures Layer(fits, t, base, v) == v <==>
      (base.Null? || base.m.Keys <= v.m.Keys) &&
      forall k :: k in v.m ==> Entry(t.element, Held(base), k, v.m[k]) == v.m[k]
  {
    var old', new' := Held(base), Entries(t.element, Held(base), v.m);
    assert Layer(fits, t, base, v) == Map(old' + new');
    if old'.Keys <= v.m.Keys {
      assert old' + new' == new';
    }
    if old' + new' == v.m {
      assert v.m.Keys == old'.Keys + v.m.Keys;
      forall k | k in v.m ensures Entry(t.element, old', k, v.m[k]) == v.m[k] { assert (old' + new')[k] == new'[k]; }
    }
    if forall k :: k in v.m ==> Entry(t.element, old', k, v.m[k]) == v.m[k] {
      assert new' == v.m;
    }
  }

  // When a value that decodes reads as it is written: a scalar unless it is null,
  // a list or a pointer's null always, a map as above, and a struct when it names
  // every field and each of them does.
  predicate AsWritten(t: Shape, base: Node, v: Node) {
    match t
    case Scalar(_) => v.Leaf?
    case Dynamic => true
    case Listing => true
    case Table(e) =>
      v.Null? || (v.Map? && (!base.Map? || base.m.Keys <= v.m.Keys) && forall k :: k in v.m ==>
        Entry(e, Held(base), k, v.m[k]) == v.m[k])
    case Record(fields) =>
      && v.Map? && v.m.Keys == fields.Keys
      && forall k :: k in fields ==> base.Map? && k in base.m && AsWritten(fields[k], base.m[k], v.m[k])
    case Pointer(to) => v.Null? || AsWritten(to, if base.Null? then Zero(to) else base, v)
  }

  lemma {:induction false} LayerIsWrittenIff(fits: Fits, t: Shape, base: Node, v: Node)
    requires Conforms(t, base) && Decodes(fits, t, v)
    ensures Layer(fits, t, base, v) == v <==> AsWritten(t, base, v)
    decreases t
  {
    match t
    case Table(_) => if v.Map? { WholeMapIsMerged(fits, t, base, v); }
    case Record(fields) =>
      if v.Map? {
        var r := Layer(fits, t, base, v);
        assert r.m.Keys == fields.Keys;
        forall k | k in fields && k in v.m ensures r.m[k] == v.m[k] <==> AsWritten(fields[k], base.m[k], v.m[k]) {
          LayerIsWrittenIff(fits, fields[k], base.m[k], v.m[k]);
        }
        if AsWritten(t, base, v) { assert r.m == v.m; }
      }
    case Pointer(to) =>
      ZeroConforms(to);
      if !v.Null? { LayerIsWrittenIff(fits, to, if base.Null? then Zero(to) else base, v); }
    case _ =>
  }

  // The same for a value written below a key of t.
  predicate WrittenBelow(t: Shape, base: Node, path: Path, v: Node)
    decreases t
  {
    if path == [] then AsWritten(t, base, v)
    else
      match t
      case Record(fields) =>
        base.Map? && path[0] in fields && path[0] in base.m &&
          WrittenBelow(fields[path[0]], base.m[path[0]], path[1..], v)
      case Table(e) => Entry(e, Held(base), path[0], v) == v
      case Pointer(to) => WrittenBelow(to, if base.Null? then Zero(to) else base, path, v)
      case _ => false
  }

  lemma {:induction false} SetTakesEffectIff(fits: Fits, t: Shape, base: Node, over: Node, path: Path, v: Node)
    requires Layered(t) && Conforms(t, base) && over.Map? && Resolve(t, path).Some?
    requires Decodes(fits, t, Put(over, path, v))
    ensures Lookup(Layer(fits, t, base, Put(over, path, v)), path) == Some(v) <==> WrittenBelow(t, base, path, v)
    decreases t
  {
    if path == [] {
      LayerIsWrittenIff(fits, t, base, v);
    } else {
      match t
      case Pointer(to) =>
        ZeroConforms(to);
        SetTakesEffectIff(fits, to, if base.Null? then Zero(to) else base, over, path, v);
      case Record(fields) =>
        var k := path[0];
        assert Put(over, path, v).m[k] == Put(Child(over, k), path[1..], v);
        SetTakesEffectIff(fits, fields[k], base.m[k], Child(over, k), path[1..], v);
      case Table(e) =>
        assert Lookup(Layer(fits, t, base, Put(over, path, v)), path) ==
          Some(Entry(e, Held(base), path[0], v));
      case _ =>
    }
  }

  // ------------------------------------------------- a whole profile

  datatype Strategy = Strategy(defaultStrategy: string, heuristicsCheck: string)

  datatype Profile = Profile(strategy: Option<Strategy>, raw: map<string, Node>)

  function TextAt(n: Node, key: string): string {
    if n.Map? && key in n.m && n.m[key].Leaf? then n.m[key].text else ""
  }

  // What loading a document gives: its strategy keys, and every section as written.
  function Load(schema: Schema, root: Node): Profile {
    if !root.Map? then Profile(None, map[])
    else if schema.strategy in root.m && root.m[schema.strategy].Map? then
      var s := root.m[schema.strategy];
      Profile(Some(Strategy(TextAt(s, schema.choice), TextAt(s, schema.heuristics))), root.m)
    else Profile(None, root.m)
  }

  // A non-empty text replaces the one in the settings.
  function Pick(schema: Schema, settings: Node, key: string, v: string): (r: Node)
    requires settings.Map?
    ensures r.Map? && r.m.Keys >= settings.m.Keys
  {
    if v == "" then settings else Put(settings, [schema.strategy, key], Leaf(v))
  }

  function PickStrategy(schema: Schema, settings: Node, strategy: Option<Strategy>): (r: Node)
    requires settings.Map?
    ensures r.Map? && r.m.Keys >= settings.m.Keys
  {
    match strategy
    case None => settings
    case Some(s) => Pick(schema, Pick(schema, settings, schema.choice, s.defaultStrategy), schema.heuristics,
        s.heuristicsCheck)
  }

  // The first section from index i on that does not decode.
  function FirstBad(fits: Fits, schema: Schema, raw: map<string, Node>, i: nat): (r: nat)
    requires SettingsShape(schema) && i <= |schema.sections|
    ensures i <= r <= |schema.sections|
    ensures forall j :: i <= j < r && schema.sections[j] in raw ==>
      Decodes(fits, schema.root.fields[schema.sections[j]], raw[schema.sections[j]])
    ensures r < |schema.sections| ==>
      schema.sections[r] in raw && !Decodes(fits, schema.root.fields[schema.sections[r]], raw[schema.sections[r]])
    decreases |schema.sections| - i
  {
    if i == |schema.sections| then i
    else if schema.sections[i] in raw &&
      !Decodes(fits, schema.root.fields[schema.sections[i]], raw[schema.sections[i]]) then i
    else FirstBad(fits, schema, raw, i + 1)
  }

  // The settings with section i laid over.
  function OneSection(fits: Fits, schema: Schema, settings: Node, raw: map<string, Node>, i: nat): (r: Node)
    requires SettingsShape(schema) && settings.Map? && i < |schema.sections| && schema.sections[i] in settings.m
    ensures r.Map? && r.m.Keys == settings.m.Keys
  {
    var key := schema.sections[i];
    if key in raw then Map(settings.m[key := Layer(fits, schema.root.fields[key], settings.m[key], raw[key])])
      else settings
  }

  predicate HasSections(schema: Schema, settings: Node) {
    settings.Map? && forall i :: 0 <= i < |schema.sections| ==> schema.sections[i] in settings.m
  }

  // The settings with the sections before index n laid over, one after another.
  function Overlaid(fits: Fits, schema: Schema, settings: Node, raw: map<string, Node>, n: nat): (r: Node)
    requires SettingsShape(schema) && HasSections(schema, settings) && n <= |schema.sections|
    ensures r.Map? && r.m.Keys == settings.m.Keys
  {
    if n == 0 then settings else OneSection(fits, schema, Overlaid(fits, schema, settings, raw, n - 1), raw, n - 1)
  }

  // What the method below makes of the settings.
  function Applied(fits: Fits, schema: Schema, settings: Node, profile: Profile): (r: Node)
    requires SettingsShape(schema) && HasSections(schema, settings)
  {
    var bad := FirstBad(fits, schema, profile.raw, 0);
    Overlaid(fits, schema, PickStrategy(schema, settings, profile.strategy), profile.raw,
      if bad < |schema.sections| then bad + 1 else bad)
  }

  class Live {
    var settings: Node

    // Decodes a node onto the section that stands under key.
    method Decode(fits: Fits, t: Shape, key: string, over: Node) returns (ok: bool)
      requires settings.Map? && key in settings.m
      modifies this
      ensures ok == Decodes(fits, t, over)
      ensures settings == Map(old(settings).m[key := Layer(fits, t, old(settings).m[key], over)])
    {
      ok := Decodes(fits, t, over);
      settings := Map(settings.m[key := Layer(fits, t, settings.m[key], over)]);
    }

    method ApplyStrategy(schema: Schema, strategy: Option<Strategy>)
      requires settings.Map?
      modifies this
      ensures settings == PickStrategy(schema, old(settings), strategy)
    {
      if strategy.Some? {
        var v := strategy.value.defaultStrategy;
        if v != "" { settings := Put(settings, [schema.strategy, schema.choice], Leaf(v)); }
        v := strategy.value.heuristicsCheck;
        if v != "" { settings := Put(settings, [schema.strategy, schema.heuristics], Leaf(v)); }
      }
    }

    // A section that does not decode stops the rest from being applied.
    method ApplyProfile(fits: Fits, schema: Schema, profile: Profile) returns (failed: Option<string>)
      requires SettingsShape(schema) && HasSections(schema, settings)
      modifies this
      ensures failed.Some? <==> FirstBad(fits, schema, profile.raw, 0) < |schema.sections|
      ensures failed.Some? ==> failed.value == schema.sections[FirstBad(fits, schema, profile.raw, 0)]
      ensures settings == Applied(fits, schema, old(settings), profile)
    {
      ApplyStrategy(schema, profile.strategy);
      ghost var strategic := settings;
      var i := 0;
      while i < |schema.sections|
        invariant 0 <= i <= |schema.sections| && HasSections(schema, strategic)
        invariant settings == Overlaid(fits, schema, strategic, profile.raw, i)
        invariant FirstBad(fits, schema, profile.raw, 0) == FirstBad(fits, schema, profile.raw, i)
      {
        var key := schema.sections[i];
        if key in profile.raw {
          var ok := Decode(fits, schema.root.fields[key], key, profile.raw[key]);
          if !ok { return Some(key); }
        }
        i := i + 1;
      }
      failed := None;
    }
  }
}
