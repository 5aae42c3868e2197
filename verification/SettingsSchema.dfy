/**
  The declared types of the settings structs, and the keys that name a setting.
*/
module SettingsSchema {
  import opened Common
  import opened SettingsTree

  datatype Kind = Text | Flag | Whole | Fraction

  datatype Shape = Scalar(kind: Kind) | Dynamic | Listing | Table(element: Shape) | Record(fields: map<string, Shape>)
      | Pointer(to: Shape)

  // The settings struct; the sections of it a profile or a project overlay is
  // laid over, in the order they are applied; and the section of which it may
  // change only two keys.
  datatype Schema = Schema(root: Shape, sections: seq<string>, strategy: string, choice: string, heuristics: string)

  function Declared(root: Shape): Schema {
    Schema(root,
           ["scanning_pace", "discovery", "spidering", "known_issue_scan", "dynamic-assessment",
            "external_harvester", "mutation_strategy", "scope", "notify"],
           "scanning_strategy", "default_strategy", "heuristics_check")
  }

  // Types whose values a layer can reach into one key at a time.
  predicate Layered(t: Shape) {
    match t
    case Dynamic => false
    case Table(e) => e.Scalar? || e.Listing?
    case Record(fields) => forall k :: k in fields ==> Layered(fields[k])
    case Pointer(to) => !to.Pointer? && Layered(to)
    case _ => true
  }

  predicate DistinctNames(schema: Schema) {
    && (forall i, j :: 0 <= i < j < |schema.sections| ==> schema.sections[i] != schema.sections[j])
    && schema.strategy !in schema.sections && schema.choice != schema.heuristics
  }

  predicate StrategyShape(schema: Schema)
    requires schema.root.Record?
  {
    && schema.strategy in schema.root.fields && schema.root.fields[schema.strategy].Record?
    && var fields := schema.root.fields[schema.strategy].fields;
       forall k :: k in {schema.choice, schema.heuristics} ==> k in fields && fields[k] == Scalar(Text)
  }

  // A struct with a struct for every section, and the two strategy keys.
  predicate SettingsShape(schema: Schema) {
    && schema.root.Record? && DistinctNames(schema)
    && (forall s :: s in schema.sections ==>
       s in schema.root.fields && schema.root.fields[s].Record? && Layered(schema.root.fields[s]))
    && StrategyShape(schema)
  }

  lemma DeclaredNamesAreDistinct(root: Shape)
    ensures DistinctNames(Declared(root))
  {
    var schema := Declared(root);
    forall i, j | 0 <= i < j < |schema.sections| ensures schema.sections[i] != schema.sections[j] {
      assert |schema.sections[i]| != |schema.sections[j]| || schema.sections[i][0] != schema.sections[j][0];
    }
    forall i | 0 <= i < |schema.sections| ensures schema.sections[i] != schema.strategy {
      assert |schema.sections[i]| != |schema.strategy| || schema.sections[i][0] == 'm';
    }
    assert schema.choice[0] != schema.heuristics[0];
  }

  function Strip(t: Shape): (s: Shape)
    ensures !s.Pointer?
  {
    if t.Pointer? then Strip(t.to) else t
  }

  // The declared type a key leads to, pointers stripped; a segment below a
  // table is any entry of it.
  function Resolve(t: Shape, path: Path): (r: Option<Shape>)
    ensures r.Some? ==> !r.value.Pointer?
    decreases |path|
  {
    var s := Strip(t);
    if path == [] then Some(s)
    else if s.Record? then if path[0] in s.fields then Resolve(s.fields[path[0]], path[1..]) else None
    else if s.Table? then Resolve(s.element, path[1..])
    else None
  }

  function Parent(path: Path): Path
    requires path != []
  {
    path[..|path| - 1]
  }

  function Last(path: Path): string
    requires path != []
  {
    path[|path| - 1]
  }

  predicate ListOp(path: Path) {
    |path| >= 2 && (Last(path) == "add" || Last(path) == "clear")
  }

  // The setting a key writes: the list itself for `<list>.add` and `<list>.clear`.
  function SettingPath(root: Shape, key: Path): (r: Path)
    ensures key != [] ==> r != []
  {
    if ListOp(key) && Resolve(root, Parent(key)) == Some(Listing) then Parent(key) else key
  }

  lemma {:induction false} ResolvePrefix(t: Shape, path: Path, last: string)
    ensures Resolve(t, path) == Some(Listing) ==> Resolve(t, path + [last]) == None
    decreases |path|
  {
    if path == [] {
      assert (path + [last])[1..] == [];
    } else {
      assert (path + [last])[1..] == path[1..] + [last];
      var s := Strip(t);
      if s.Record? && path[0] in s.fields { ResolvePrefix(s.fields[path[0]], path[1..], last); }
      if s.Table? { ResolvePrefix(s.element, path[1..], last); }
    }
  }

  // A key of a list operation names no setting below the list, so naming the
  // setting twice is naming it once.
  lemma SettingPathStays(root: Shape, key: Path)
    ensures SettingPath(root, SettingPath(root, key)) == SettingPath(root, key)
  {
    var p := SettingPath(root, key);
    if p != key && ListOp(p) {
      ResolvePrefix(root, Parent(p), Last(p));
      assert Parent(p) + [Last(p)] == p;
    }
  }
}
