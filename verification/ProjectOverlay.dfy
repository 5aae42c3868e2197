/**
  Writing one key into a project's overlay file: the file is unmarshalled into
  nested mutable maps, the walk down them creates and overwrites entries in
  place, and the result is marshalled back.
*/
module ProjectOverlay {
  import opened Common
  import opened SettingsTree
  import opened SettingsSchema

  datatype Val = Plain(n: Node) | Sub(d: Dict)

  // One map[string]any. `at` is where it stands in its document: unmarshalling
  // builds each map for one place, and no map is ever moved.
  class Dict {
    var m: map<string, Val>
    ghost const at: Path

    constructor (ghost at: Path)
      ensures m == map[] && this.at == at
    {
      this.m := map[];
      this.at := at;
    }
  }

  // v, standing at `at`, unfolds to n through maps of region only.
  ghost predicate Holds(v: Val, at: Path, n: Node, region: set<Dict>)
    reads region
    decreases n
  {
    match v
    case Plain(x) => x == n && !n.Map?
    case Sub(d) =>
      && n.Map? && d in region && d.at == at && d.m.Keys == n.m.Keys
      && forall k :: k in n.m ==> Holds(d.m[k], at + [k], n.m[k], region)
  }

  lemma {:induction false} HoldsMore(v: Val, at: Path, n: Node, region: set<Dict>, more: set<Dict>)
    requires Holds(v, at, n, region) && region <= more
    ensures Holds(v, at, n, more)
    decreases n
  {
    if v.Sub? {
      forall k | k in n.m ensures Holds(v.d.m[k], at + [k], n.m[k], more) {
        HoldsMore(v.d.m[k], at + [k], n.m[k], region, more);
      }
    }
  }

  method Unmarshal(n: Node, ghost at: Path) returns (v: Val, ghost region: set<Dict>)
    ensures fresh(region) && Holds(v, at, n, region) && v.Sub? == n.Map?
    decreases n
  {
    if !n.Map? {
      return Plain(n), {};
    }
    var d := new Dict(at);
    ghost var inner: set<Dict> := {};
    var todo := n.m.Keys;
    while todo != {}
      invariant fresh(inner) && d !in inner
      invariant todo <= n.m.Keys && d.m.Keys == n.m.Keys - todo
      invariant forall k :: k in d.m ==> Holds(d.m[k], at + [k], n.m[k], inner)
      decreases todo
    {
      var key :| key in todo;
      var x, f := Unmarshal(n.m[key], at + [key]);
      forall k | k in d.m ensures Holds(d.m[k], at + [k], n.m[k], inner + f) {
        HoldsMore(d.m[k], at + [k], n.m[k], inner, inner + f);
      }
      HoldsMore(x, at + [key], n.m[key], f, inner + f);
      inner := inner + f;
      d.m := d.m[key := x];
      todo := todo - {key};
    }
    v, region := Sub(d), inner + {d};
    forall k | k in n.m ensures Holds(d.m[k], at + [k], n.m[k], region) {
      HoldsMore(d.m[k], at + [k], n.m[k], inner, region);
    }
  }

  method Marshal(v: Val, ghost at: Path, ghost n: Node, ghost region: set<Dict>) returns (out: Node)
    requires Holds(v, at, n, region)
    ensures out == n
    decreases n
  {
    match v
    case Plain(x) => out := x;
    case Sub(d) =>
      var m: map<string, Node> := map[];
      var todo := d.m.Keys;
      while todo != {}
        invariant todo <= d.m.Keys && m.Keys == d.m.Keys - todo
        invariant forall k :: k in m ==> m[k] == n.m[k]
        decreases todo
      {
        var key :| key in todo;
        var x := Marshal(d.m[key], at + [key], n.m[key], region);
        m := m[key := x];
        todo := todo - {key};
      }
      assert m == n.m;
      out := Map(m);
  }

  // ------------------------------------------------- one map, and the tree around it

  // A value standing off the way to cur unfolds without it.
  lemma {:induction false} OffTheWay(v: Val, at: Path, n: Node, region: set<Dict>, cur: Dict)
    requires Holds(v, at, n, region) && !(at <= cur.at)
    ensures Holds(v, at, n, region - {cur})
    decreases n
  {
    if v.Sub? {
      forall k | k in n.m ensures Holds(v.d.m[k], at + [k], n.m[k], region - {cur}) {
        OffTheWay(v.d.m[k], at + [k], n.m[k], region, cur);
      }
    }
  }

  // The entries of d other than skip unfold to those of n.
  ghost predicate Entries(d: Dict, at: Path, n: Node, region: set<Dict>, skip: string)
    reads d, region
  {
    && n.Map? && d.at == at && d.m.Keys == n.m.Keys
    && forall k :: k in n.m && k != skip ==> Holds(d.m[k], at + [k], n.m[k], region)
  }

  // v unfolds to n except at path, where cur stands whatever it holds.
  ghost predicate Around(v: Val, at: Path, n: Node, region: set<Dict>, path: Path, cur: Dict)
    reads region - {cur}
    decreases |path|
  {
    && v.Sub? && n.Map?
    && if path == [] then v.d == cur && cur.at == at
       else
         && v.d in region - {cur} && Entries(v.d, at, n, region - {cur}, path[0])
         && path[0] in n.m && Around(v.d.m[path[0]], at + [path[0]], n.m[path[0]], region, path[1..], cur)
  }

  lemma {:induction false} AroundMore(v: Val, at: Path, n: Node, region: set<Dict>, path: Path, cur: Dict,
      more: set<Dict>)
    requires Around(v, at, n, region, path, cur) && region <= more
    ensures Around(v, at, n, more, path, cur)
    decreases |path|
  {
    if path != [] {
      forall k | k in n.m && k != path[0] ensures Holds(v.d.m[k], at + [k], n.m[k], more - {cur}) {
        HoldsMore(v.d.m[k], at + [k], n.m[k], region - {cur}, more - {cur});
      }
      AroundMore(v.d.m[path[0]], at + [path[0]], n.m[path[0]], region, path[1..], cur, more);
    }
  }

  // With the map at path unfolding to c, the whole unfolds to n with c put there.
  lemma {:induction false} Close(v: Val, at: Path, n: Node, region: set<Dict>, path: Path, cur: Dict, c: Node)
    requires Around(v, at, n, region, path, cur) && Holds(Sub(cur), at + path, c, region)
    ensures Holds(v, at, Put(n, path, c), region)
    decreases |path|
  {
    if path == [] {
      assert at + path == at;
    } else {
      assert at + path == (at + [path[0]]) + path[1..];
      Close(v.d.m[path[0]], at + [path[0]], n.m[path[0]], region, path[1..], cur, c);
      forall k | k in n.m && k != path[0] ensures Holds(v.d.m[k], at + [k], n.m[k], region) {
        HoldsMore(v.d.m[k], at + [k], n.m[k], region - {cur}, region);
      }
    }
  }

  // The walk goes one map further down.
  lemma {:induction false} Descend(v: Val, at: Path, n: Node, region: set<Dict>, path: Path, cur: Dict, c: Node,
      seg: string, next: Dict)
    requires Around(v, at, n, region, path, cur) && cur in region && next in region
    requires next.at == at + path + [seg]
    requires Entries(cur, at + path, c, region - {next}, seg)
    requires seg in c.m && c.m[seg].Map? && cur.m[seg] == Sub(next)
    ensures Around(v, at, Put(n, path, c), region, path + [seg], next)
    decreases |path|
  {
    assert (path + [seg])[0] == if path == [] then seg else path[0];
    if path == [] {
      assert at + path == at;
      assert (path + [seg])[1..] == [];
    } else {
      assert (path + [seg])[1..] == path[1..] + [seg] && at + path == (at + [path[0]]) + path[1..];
      Descend(v.d.m[path[0]], at + [path[0]], n.m[path[0]], region, path[1..], cur, c, seg, next);
      forall k | k in n.m && k != path[0] ensures Holds(v.d.m[k], at + [k], n.m[k], region - {next}) {
        assert (at + [k])[|at|] == k && next.at[|at|] == path[0];
        OffTheWay(v.d.m[k], at + [k], n.m[k], region - {cur}, next);
        HoldsMore(v.d.m[k], at + [k], n.m[k], region - {cur} - {next}, region - {next});
      }
    }
  }

  // The entries of a map unfold without the map itself.
  lemma Open(cur: Dict, c: Node, region: set<Dict>, skip: string)
    requires Holds(Sub(cur), cur.at, c, region)
    ensures Entries(cur, cur.at, c, region - {cur}, skip)
  {
    forall k | k in c.m ensures Holds(cur.m[k], cur.at + [k], c.m[k], region - {cur}) {
      OffTheWay(cur.m[k], cur.at + [k], c.m[k], region, cur);
    }
  }

  lemma {:induction false} PutDeeper(n: Node, path: Path, c: Node, seg: string, x: Node)
    requires n.Map? && c.Map? && seg in c.m && c.m[seg].Map?
    ensures Put(Put(n, path, c), path + [seg], x) == Put(n, path, Map(c.m[seg := x]))
    decreases |path|
  {
    assert (path + [seg])[0] == if path == [] then seg else path[0];
    if path == [] {
      assert (path + [seg])[1..] == [];
    } else {
      assert (path + [seg])[1..] == path[1..] + [seg];
      PutDeeper(Child(n, path[0]), path[1..], c, seg, x);
    }
  }

  // The entries beside seg unfold without the map seg leads to.
  lemma Siblings(cur: Dict, c: Node, region: set<Dict>, seg: string, next: Dict)
    requires Holds(Sub(cur), cur.at, c, region) && next.at == cur.at + [seg]
    ensures Entries(cur, cur.at, c, region - {next}, seg)
  {
    forall k | k in c.m && k != seg ensures Holds(cur.m[k], cur.at + [k], c.m[k], region - {next}) {
      assert (cur.at + [k])[|cur.at|] == k && next.at[|cur.at|] == seg;
      OffTheWay(cur.m[k], cur.at + [k], c.m[k], region, next);
    }
  }

  // Stores a value under one entry.
  method SetEntry(cur: Dict, k: string, w: Val, ghost c: Node, ghost x: Node, ghost region: set<Dict>)
    requires Holds(Sub(cur), cur.at, c, region) && Holds(w, cur.at + [k], x, region - {cur})
    modifies cur
    ensures cur.m == old(cur.m)[k := w]
    ensures Holds(Sub(cur), cur.at, Map(c.m[k := x]), region)
  {
    Open(cur, c, region, k);
    cur.m := cur.m[k := w];
    ghost var after := c.m[k := x];
    forall j | j in after ensures Holds(cur.m[j], cur.at + [j], after[j], region) {
      HoldsMore(cur.m[j], cur.at + [j], after[j], region - {cur}, region);
    }
  }

  // The walk from root along path has come to cur: the tree around cur is that
  // of n, and cur itself holds c.
  ghost predicate Cursor(root: Dict, n: Node, region: set<Dict>, path: Path, cur: Dict, c: Node)
    reads region, cur
  {
    && n.Map? && cur in region && cur.at == path
    && Around(Sub(root), [], n, region, path, cur)
    && Holds(Sub(cur), path, c, region)
  }

  // Goes down into the map under seg, putting an empty one there if there is none.
  method Enter(root: Dict, cur: Dict, seg: string, ghost n: Node, ghost path: Path, ghost c: Node,
      ghost region: set<Dict>)
      returns (next: Dict, ghost all: set<Dict>)
    requires Cursor(root, n, region, path, cur, c)
    modifies cur
    ensures region <= all && fresh(all - region)
    ensures Cursor(root, Put(n, path, Map(c.m[seg := Child(c, seg)])), all, path + [seg], next, Child(c, seg))
  {
    ghost var child := Child(c, seg);
    assert [] + path + [seg] == path + [seg] && [] + path == path;
    if seg in cur.m && cur.m[seg].Sub? {
      next, all := cur.m[seg].d, region;
      assert Holds(cur.m[seg], path + [seg], c.m[seg], region);
      assert c.m[seg := child] == c.m;
    } else {
      next := new Dict(path + [seg]);
      all := region + {next};
      HoldsMore(Sub(cur), path, c, region, all);
      SetEntry(cur, seg, Sub(next), c, child, all);
      AroundMore(Sub(root), [], n, region, path, cur, all);
    }
    ghost var c1 := Map(c.m[seg := child]);
    Siblings(cur, c1, all, seg, next);
    Descend(Sub(root), [], n, all, path, cur, c1, seg, next);
  }

  lemma {:induction false} LookupDeeper(n: Node, path: Path, seg: string)
    requires Lookup(n, path).Some?
    ensures Lookup(n, path + [seg]) == Lookup(Lookup(n, path).value, [seg])
    decreases |path|
  {
    if path == [] {
      assert path + [seg] == [seg];
    } else {
      assert (path + [seg])[0] == path[0] && (path + [seg])[1..] == path[1..] + [seg];
      LookupDeeper(n.m[path[0]], path[1..], seg);
    }
  }

  // Going down into a map that is there leaves the document as it is.
  lemma Down(root: Dict, n: Node, region: set<Dict>, path: Path, cur: Dict, c: Node, seg: string)
    requires Cursor(root, n, region, path, cur, c) && Lookup(n, path) == Some(c)
    requires seg in cur.m && cur.m[seg].Sub?
    ensures Cursor(root, n, region, path + [seg], cur.m[seg].d, c.m[seg]) && Lookup(n, path + [seg]) == Some(c.m[seg])
  {
    var next := cur.m[seg].d;
    assert [] + path + [seg] == path + [seg] && [] + path == path;
    assert Holds(cur.m[seg], path + [seg], c.m[seg], region);
    Siblings(cur, c, region, seg, next);
    Descend(Sub(root), [], n, region, path, cur, c, seg, next);
    PutSame(n, path, c);
    LookupDeeper(n, path, seg);
  }

  lemma Slices(parts: Path, i: nat)
    requires i < |parts|
    ensures parts[..i + 1] == parts[..i] + [parts[i]] && parts[i..][0] == parts[i] && parts[i..][1..] == parts[i + 1..]
    ensures i == |parts| - 1 ==> parts[..i] + [parts[i]] == parts && parts[i..] == [parts[i]]
  {
  }

  // With n around it, writing rest below c is writing all of parts in t.
  predicate SamePut(t: Node, parts: Path, n: Node, path: Path, c: Node, rest: Path, x: Node)
    requires t.Map?
  {
    n.Map? && c.Map? && rest != [] && Put(n, path, Put(c, rest, x)) == Put(t, parts, x)
  }

  // Writing below path is writing, at path, one step further down.
  lemma PutStep(n: Node, path: Path, c: Node, rest: Path, x: Node)
    requires n.Map? && c.Map? && rest != []
    ensures Put(Put(n, path, Map(c.m[rest[0] := Child(c, rest[0])])), path + [rest[0]],
      Put(Child(c, rest[0]), rest[1..], x))
            == Put(n, path, Put(c, rest, x))
  {
    var seg, child := rest[0], Child(c, rest[0]);
    var y := Put(child, rest[1..], x);
    PutDeeper(n, path, Map(c.m[seg := child]), seg, y);
    MapTwice(c.m, seg, child, y);
  }

  lemma SamePutDeeper(t: Node, parts: Path, n: Node, path: Path, c: Node, rest: Path, x: Node)
    requires t.Map? && SamePut(t, parts, n, path, c, rest, x) && |rest| > 1
    ensures SamePut(t, parts, Put(n, path, Map(c.m[rest[0] := Child(c, rest[0])])), path + [rest[0]],
      Child(c, rest[0]), rest[1..], x)
  {
    PutStep(n, path, c, rest, x);
  }

  // Stores the value in the map the walk has come to.
  method Place(root: Dict, cur: Dict, k: string, w: Val, ghost n: Node, ghost path: Path, ghost c: Node,
      ghost region: set<Dict>, ghost x: Node, ghost held: set<Dict>)
      returns (ghost all: set<Dict>)
    requires Cursor(root, n, region, path, cur, c)
    requires Holds(w, path + [k], x, held) && held !! region
    modifies cur
    ensures Holds(Sub(root), [], Put(n, path, Put(c, [k], x)), all)
  {
    all := region + held;
    HoldsMore(Sub(cur), path, c, region, all);
    HoldsMore(w, path + [k], x, held, all - {cur});
    SetEntry(cur, k, w, c, x, all);
    AroundMore(Sub(root), [], n, region, path, cur, all);
    assert [] + path == path;
    Close(Sub(root), [], n, all, path, cur, Map(c.m[k := x]));
  }

  // The document in overlay becomes the one with value under parts.
  method WriteKey(overlay: Dict, parts: Path, value: Val, ghost t: Node, ghost region: set<Dict>, ghost x: Node,
      ghost held: set<Dict>)
      returns (ghost all: set<Dict>)
    requires parts != [] && Holds(Sub(overlay), [], t, region)
    requires Holds(value, parts, x, held) && held !! region
    modifies region
    ensures Holds(Sub(overlay), [], Put(t, parts, x), all)
  {
    var cur := overlay;
    var i := 0;
    all := region;
    ghost var n, c := t, t;
    while i < |parts| - 1
      invariant 0 <= i < |parts| && fresh(all - region)
      invariant Cursor(overlay, n, all, parts[..i], cur, c)
      invariant SamePut(t, parts, n, parts[..i], c, parts[i..], x)
    {
      var seg := parts[i];
      Slices(parts, i);
      SamePutDeeper(t, parts, n, parts[..i], c, parts[i..], x);
      cur, all := Enter(overlay, cur, seg, n, parts[..i], c, all);
      n, c, i := Put(n, parts[..i], Map(c.m[seg := Child(c, seg)])), Child(c, seg), i + 1;
    }
    Slices(parts, i);
    all := Place(overlay, cur, parts[i], value, n, parts[..i], c, all, x, held);
  }

  // ------------------------------------------------- setting one key of a project

  datatype File = Absent | Unreadable | Garbage | Document(root: Node)

  datatype Refusal = NoProject | UnknownSection | UnknownKey | CannotRead | DoesNotParse | CannotWrite

  // The names the section check accepts: the tagged sections, and the field
  // that carries no tag under its own lower-case name.
  function Sections(schema: Schema): set<string> {
    {schema.strategy, "raw"} + (set s | s in schema.sections)
  }

  // The map a key's last segment is looked up in.
  function Holder(t: Node, path: Path): Option<Node>
    requires path != []
  {
    match Lookup(t, Parent(path))
    case Some(Map(m)) => Some(Map(m))
    case _ => None
  }

  // What the settings hold at a key: null when its last segment is absent.
  function ValueAt(t: Node, path: Path): Node
    requires path != []
  {
    match Lookup(t, path)
    case Some(x) => x
    case None => Null
  }

  // The document an overlay file starts from; an empty one reads as null.
  function Base(file: File): Result<Node, Refusal> {
    match file
    case Absent => Ok(EMPTY)
    case Unreadable => Err(CannotRead)
    case Garbage => Err(DoesNotParse)
    case Document(root) => if root.Map? then Ok(root) else if root.Null? then Ok(EMPTY) else Err(DoesNotParse)
  }

  // Which refusal a write meets, in the order the conditions are looked at; the
  // key it writes when it meets none.
  function Verdict(blank: bool, schema: Schema, key: Path, settings: Node, file: File,
      writable: bool): (r: Result<Path, Refusal>)
    requires key != []
    ensures r.Ok? <==>
      !blank && SettingPath(schema.root, key)[0] in Sections(schema) &&
        Holder(settings, SettingPath(schema.root, key)).Some?
                       && Base(file).Ok? && writable
    ensures r.Ok? ==> r.value == SettingPath(schema.root, key)
  {
    var path := SettingPath(schema.root, key);
    if blank then Err(NoProject)
    else if path[0] !in Sections(schema) then Err(UnknownSection)
    else if Holder(settings, path).None? then Err(UnknownKey)
    else if Base(file).Err? then Err(Base(file).error)
    else if !writable then Err(CannotWrite)
    else Ok(path)
  }

  // Which refusal a call meets, and what an accepted one starts from: a missing
  // file and one that holds nothing are empty overlays, one that cannot be read or
  // holds no map is refused rather than replaced.
  lemma FileIsNotReplaced(blank: bool, schema: Schema, key: Path, settings: Node, file: File, writable: bool)
    requires key != []
    ensures var path := SettingPath(schema.root, key);
      var r, known := Verdict(blank, schema, key, settings, file, writable),
        !blank && path[0] in Sections(schema) && Holder(settings, path).Some?;
      && (r == Err(NoProject) <==> blank)
      && (r == Err(UnknownSection) <==> !blank && path[0] !in Sections(schema))
      && (r == Err(UnknownKey) <==> !blank && path[0] in Sections(schema) && Holder(settings, path).None?)
      && (r == Err(CannotRead) <==> known && file.Unreadable?)
      && (r == Err(DoesNotParse) <==>
           known && (file.Garbage? || (file.Document? && !file.root.Map? && !file.root.Null?)))
      && (r.Ok? ==> file.Absent? || (file.Document? && (file.root.Map? || file.root.Null?)))
      && (r.Ok? ==> Base(file) == Ok(if file.Document? && file.root.Map? then file.root else EMPTY))
  {
  }

  lemma {:induction false} LookupLast(t: Node, path: Path)
    requires path != []
    ensures Lookup(t, path) == if Holder(t, path).Some? && Last(path) in Holder(t, path).value.m
                               then Some(Holder(t, path).value.m[Last(path)]) else None
    decreases |path|
  {
    if |path| > 1 {
      assert Parent(path)[0] == path[0] && Parent(path)[1..] == Parent(path[1..]);
      if t.Map? && path[0] in t.m { LookupLast(t.m[path[0]], path[1..]); }
    } else {
      if t.Map? && path[0] in t.m { assert Lookup(t.m[path[0]], path[1..]) == Some(t.m[path[0]]); }
    }
  }

  // One project's overlay: its file, and whether a parse of it is cached.
  class Overlay {
    var file: File
    var cached: bool
    var writable: bool

    // Walks to the map the last segment of the path is an entry of.
    static method NavigateToParent(raw: Dict, parts: Path, ghost t: Node, ghost region: set<Dict>)
      returns (r: Option<Dict>)
      requires parts != [] && Holds(Sub(raw), [], t, region)
      ensures r.Some? <==> Holder(t, parts).Some?
      ensures r.Some? ==> Cursor(raw, t, region, Parent(parts), r.value, Holder(t, parts).value)
    {
      var cur := raw;
      var i := 0;
      ghost var c := t;
      ghost var way := Parent(parts);
      while i < |parts| - 1
        invariant 0 <= i < |parts| && Cursor(raw, t, region, way[..i], cur, c)
        invariant Lookup(t, way[..i]) == Some(c) && Lookup(t, way) == Lookup(c, way[i..])
      {
        var seg := parts[i];
        Slices(way, i);
        if seg !in cur.m {
          return None;
        }
        assert Holds(cur.m[seg], way[..i] + [seg], c.m[seg], region);
        if !cur.m[seg].Sub? {
          assert Lookup(t, way) == Lookup(c.m[seg], way[i + 1..]);
          return None;
        }
        Down(raw, t, region, way[..i], cur, c, seg);
        c, cur, i := c.m[seg], cur.m[seg].d, i + 1;
      }
      assert way[..i] == way && way[i..] == [];
      r := Some(cur);
    }

    // What the settings hold at a key: nothing when a segment before the last
    // names no map.
    static method ReadSetting(settings: Node, parts: Path) returns (r: Option<Val>, ghost held: set<Dict>)
      requires parts != [] && settings.Map?
      ensures fresh(held)
      ensures r.Some? <==> Holder(settings, parts).Some?
      ensures r.Some? ==> Holds(r.value, parts, ValueAt(settings, parts), held)
    {
      var raw;
      raw, held := Unmarshal(settings, []);
      var parent := NavigateToParent(raw.d, parts, settings, held);
      if parent.None? { return None, held; }
      var leaf := Last(parts);
      ghost var holder := Holder(settings, parts).value;
      LookupLast(settings, parts);
      assert Parent(parts) + [leaf] == parts;
      if leaf !in parent.value.m { return Some(Plain(Null)), held; }
      r := Some(parent.value.m[leaf]);
      assert Holds(r.value, Parent(parts) + [leaf], holder.m[leaf], held);
    }

    // Reads a document into maps, writes the value into them and reads them back.
    static method Rewrite(existing: Node, parts: Path, value: Val, ghost x: Node, ghost held: set<Dict>)
      returns (out: Node)
      requires parts != [] && existing.Map? && Holds(value, parts, x, held)
      ensures out == Put(existing, parts, x)
    {
      var overlay, region := Unmarshal(existing, []);
      ghost var all := WriteKey(overlay.d, parts, value, existing, region, x, held);
      out := Marshal(overlay, [], Put(existing, parts, x), all);
    }

    method SetValue(blank: bool, schema: Schema, key: Path, settings: Node) returns (r: Result<Path, Refusal>)
      requires key != [] && settings.Map?
      modifies this
      ensures writable == old(writable)
      ensures r.Err? ==> file == old(file) && cached == old(cached)
      ensures r == Verdict(blank, schema, key, settings, old(file), writable)
      ensures r.Ok? ==> !cached && file == Document(Put(Base(old(file)).value, r.value, ValueAt(settings, r.value)))
    {
      if blank { return Err(NoProject); }
      var parts := SettingPath(schema.root, key);
      if parts[0] !in Sections(schema) { return Err(UnknownSection); }

      var value, held := ReadSetting(settings, parts);
      if value.None? { return Err(UnknownKey); }
      if file.Unreadable? { return Err(CannotRead); }
      if file.Garbage? || (file.Document? && !file.root.Map? && !file.root.Null?) { return Err(DoesNotParse); }
      var existing := if file.Document? && file.root.Map? then file.root else EMPTY;
      var out := Rewrite(existing, parts, value.value, ValueAt(settings, parts), held);
      if !writable { return Err(CannotWrite); }
      file, cached := Document(out), false;
      r := Ok(parts);
    }
  }
}
