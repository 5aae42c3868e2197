/**
  The deep copy behind CloneSettings, over the heap itself: pointers, slices
  and maps are objects, structs, arrays and interfaces are values nested in
  them, and the unexported fields of a struct are copied as they are.
*/
module DeepCopy {

  class Cell { var v: Value  constructor (v: Value) ensures this.v == v { this.v := v; } }

  class Dict { var m: map<string, Value>  constructor () ensures m == map[] { m := map[]; } }

  datatype Field = Field(exported: bool, v: Value)

  // reflect's kinds; Scalar stands for every kind the copy returns unchanged.
  datatype Value =
    | Scalar(n: int)
    | Nil
    | Pointer(p: Cell)
    | Struct(fields: seq<Field>)
    | Slice(elems: array<Value>)
    | Mapping(d: Dict)
    | Interface(inner: Value)
    | Array(items: seq<Value>)

  // The finite tree an acyclic value unfolds to. An unexported field is part
  // of it as the bare value it holds, not followed.
  datatype Tree =
    | TScalar(n: int)
    | TNil
    | TPointer(to: Tree)
    | TStruct(fields: seq<TField>)
    | TSlice(elems: seq<Tree>)
    | TMapping(m: map<string, Tree>)
    | TInterface(inner: Tree)
    | TArray(items: seq<Tree>)

  datatype TField = Open(t: Tree) | Hidden(v: Value)

  // v unfolds to t through objects of region only.
  ghost predicate Denotes(v: Value, t: Tree, region: set<object>)
    reads region
    decreases t
  {
    match t
    case TScalar(n) => v == Scalar(n)
    case TNil => v == Nil
    case TPointer(to) => v.Pointer? && v.p in region && Denotes(v.p.v, to, region)
    case TStruct(fields) =>
      && v.Struct? && |v.fields| == |fields|
      && forall i :: 0 <= i < |fields| ==>
           (match fields[i]
            case Open(ft) => v.fields[i].exported && Denotes(v.fields[i].v, ft, region)
            case Hidden(w) => v.fields[i] == Field(false, w))
    case TSlice(elems) =>
      && v.Slice? && v.elems in region && v.elems.Length == |elems|
      && forall i :: 0 <= i < |elems| ==> Denotes(v.elems[i], elems[i], region)
    case TMapping(m) =>
      && v.Mapping? && v.d in region && v.d.m.Keys == m.Keys
      && forall k :: k in m ==> Denotes(v.d.m[k], m[k], region)
    case TInterface(inner) => v.Interface? && Denotes(v.inner, inner, region)
    case TArray(items) =>
      && v.Array? && |v.items| == |items|
      && forall i :: 0 <= i < |items| ==> Denotes(v.items[i], items[i], region)
  }

  // The objects v refers to without passing through another object, exported
  // fields only, are all in region.
  ghost predicate Within(v: Value, region: set<object>)
  {
    match v
    case Pointer(p) => p in region
    case Slice(a) => a in region
    case Mapping(d) => d in region
    case Struct(fields) => forall i :: 0 <= i < |fields| && fields[i].exported ==> Within(fields[i].v, region)
    case Interface(inner) => Within(inner, region)
    case Array(items) => forall i :: 0 <= i < |items| ==> Within(items[i], region)
    case _ => true
  }

  // No exported path leads out of region.
  ghost predicate Closed(region: set<object>)
    reads region
  {
    && (forall c: Cell :: c in region ==> Within(c.v, region))
    && (forall a: array<Value>, i :: a in region && 0 <= i < a.Length ==> Within(a[i], region))
    && (forall d: Dict, k :: d in region && k in d.m ==> Within(d.m[k], region))
  }

  lemma {:induction false} DenotesMore(v: Value, t: Tree, region: set<object>, more: set<object>)
    requires Denotes(v, t, region) && region <= more
    ensures Denotes(v, t, more)
    decreases t
  {
    match t
    case TPointer(to) => DenotesMore(v.p.v, to, region, more);
    case TStruct(fields) =>
      forall i | 0 <= i < |fields| && fields[i].Open? ensures Denotes(v.fields[i].v, fields[i].t, more) {
        DenotesMore(v.fields[i].v, fields[i].t, region, more);
      }
    case TSlice(elems) =>
      forall i | 0 <= i < |elems| ensures Denotes(v.elems[i], elems[i], more) {
        DenotesMore(v.elems[i], elems[i], region, more);
      }
    case TMapping(m) =>
      forall k | k in m ensures Denotes(v.d.m[k], m[k], more) {
        DenotesMore(v.d.m[k], m[k], region, more);
      }
    case TInterface(inner) => DenotesMore(v.inner, inner, region, more);
    case TArray(items) =>
      forall i | 0 <= i < |items| ensures Denotes(v.items[i], items[i], more) {
        DenotesMore(v.items[i], items[i], region, more);
      }
    case _ =>
  }

  lemma {:induction false} WithinMore(v: Value, region: set<object>, more: set<object>)
    requires Within(v, region) && region <= more
    ensures Within(v, more)
    decreases v
  {
    match v
    case Struct(fields) =>
      forall i | 0 <= i < |fields| && fields[i].exported ensures Within(fields[i].v, more) {
        WithinMore(fields[i].v, region, more);
      }
    case Interface(inner) => WithinMore(inner, region, more);
    case Array(items) =>
      forall i | 0 <= i < |items| ensures Within(items[i], more) {
        WithinMore(items[i], region, more);
      }
    case _ =>
  }

  lemma ClosedUnion(a: set<object>, b: set<object>)
    requires Closed(a) && Closed(b)
    ensures Closed(a + b)
  {
    forall v: Value | Within(v, a) || Within(v, b) ensures Within(v, a + b) {
      if Within(v, a) { WithinMore(v, a, a + b); } else { WithinMore(v, b, a + b); }
    }
  }

  lemma CellJoins(region: set<object>, c: Cell)
    requires Closed(region) && Within(c.v, region)
    ensures Closed(region + {c})
  {
    forall v: Value | Within(v, region) ensures Within(v, region + {c}) { WithinMore(v, region, region + {c}); }
  }

  lemma ArrayJoins(region: set<object>, a: array<Value>)
    requires Closed(region) && forall i :: 0 <= i < a.Length ==> Within(a[i], region)
    ensures Closed(region + {a})
  {
    forall v: Value | Within(v, region) ensures Within(v, region + {a}) { WithinMore(v, region, region + {a}); }
  }

  lemma DictJoins(region: set<object>, d: Dict)
    requires Closed(region) && forall k :: k in d.m ==> Within(d.m[k], region)
    ensures Closed(region + {d})
  {
    forall v: Value | Within(v, region) ensures Within(v, region + {d}) { WithinMore(v, region, region + {d}); }
  }

  // A value and the tree it unfolds to, both kept inside region.
  ghost predicate Holds(v: Value, t: Tree, region: set<object>)
    reads region
  {
    Denotes(v, t, region) && Within(v, region)
  }

  lemma HoldsMore(v: Value, t: Tree, region: set<object>, more: set<object>)
    requires Holds(v, t, region) && region <= more
    ensures Holds(v, t, more)
  {
    DenotesMore(v, t, region, more);
    WithinMore(v, region, more);
  }

  lemma AllHoldMore(m: map<string, Value>, t: map<string, Tree>, region: set<object>, more: set<object>)
    requires region <= more && forall k :: k in m ==> k in t && Holds(m[k], t[k], region)
    ensures forall k :: k in m ==> Holds(m[k], t[k], more)
  {
    forall k | k in m ensures Holds(m[k], t[k], more) { HoldsMore(m[k], t[k], region, more); }
  }

  // deepCopyValue. The copy unfolds to the same tree, hidden fields included,
  // and everything an exported path from it reaches is newly allocated.
  method Copy(v: Value, ghost t: Tree, ghost region: set<object>) returns (cp: Value, ghost own: set<object>)
    requires Denotes(v, t, region)
    ensures fresh(own) && Holds(cp, t, own) && Closed(own)
    decreases t, 1
  {
    match v
    case Scalar(_) => cp, own := v, {};
    case Nil => cp, own := v, {};
    case Pointer(p) =>
      var inner, f := Copy(p.v, t.to, region);
      var c := new Cell(inner);
      CellJoins(f, c);
      cp, own := Pointer(c), f + {c};
      DenotesMore(inner, t.to, f, own);
    case Interface(inner) =>
      var x, f := Copy(inner, t.inner, region);
      cp, own := Interface(x), f;
    case Struct(fields) => cp, own := CopyStruct(fields, t, region);
    case Array(items) =>
      var xs;
      xs, own := CopyAll(items, t.items, t, region);
      cp := Array(xs);
    case Slice(elems) =>
      var xs, f := CopyAll(elems[..], t.elems, t, region);
      var a := new Value[|xs|](i requires 0 <= i < |xs| => xs[i]);
      ArrayJoins(f, a);
      cp, own := Slice(a), f + {a};
      forall i | 0 <= i < |xs| ensures Denotes(a[i], t.elems[i], own) { DenotesMore(xs[i], t.elems[i], f, own); }
    case Mapping(d) => cp, own := CopyMapping(d, t, region);
  }

  // The element loop of slices and arrays.
  method CopyAll(vs: seq<Value>, ghost ts: seq<Tree>, ghost t: Tree, ghost region: set<object>)
    returns (xs: seq<Value>, ghost own: set<object>)
    requires t == TSlice(ts) || t == TArray(ts)
    requires |vs| == |ts| && forall i :: 0 <= i < |ts| ==> Denotes(vs[i], ts[i], region)
    ensures fresh(own) && Closed(own)
    ensures |xs| == |ts| && forall i :: 0 <= i < |ts| ==> Holds(xs[i], ts[i], own)
    decreases t, 0
  {
    xs, own := [], {};
    for n := 0 to |vs|
      invariant fresh(own) && Closed(own)
      invariant |xs| == n && forall i :: 0 <= i < n ==> Holds(xs[i], ts[i], own)
    {
      var x, f := Copy(vs[n], ts[n], region);
      forall i | 0 <= i < n ensures Holds(xs[i], ts[i], own + f) { HoldsMore(xs[i], ts[i], own, own + f); }
      HoldsMore(x, ts[n], f, own + f);
      ClosedUnion(own, f);
      xs, own := xs + [x], own + f;
    }
  }

  method CopyStruct(fields: seq<Field>, ghost t: Tree, ghost region: set<object>)
    returns (cp: Value, ghost own: set<object>)
    requires t.TStruct? && Denotes(Struct(fields), t, region)
    ensures fresh(own) && Holds(cp, t, own) && Closed(own)
    decreases t, 0
  {
    var out := fields;
    own := {};
    for n := 0 to |fields|
      invariant fresh(own) && Closed(own)
      invariant |out| == |fields| && out[n..] == fields[n..]
      invariant forall i :: 0 <= i < n ==> out[i].exported == fields[i].exported
      invariant forall i :: 0 <= i < n && t.fields[i].Hidden? ==> out[i] == fields[i]
      invariant forall i :: 0 <= i < n && t.fields[i].Open? ==> Holds(out[i].v, t.fields[i].t, own)
    {
      if !fields[n].exported {
        continue;
      }
      var x, f := Copy(fields[n].v, t.fields[n].t, region);
      forall i | 0 <= i < n && t.fields[i].Open? ensures Holds(out[i].v, t.fields[i].t, own + f) {
        HoldsMore(out[i].v, t.fields[i].t, own, own + f);
      }
      HoldsMore(x, t.fields[n].t, f, own + f);
      ClosedUnion(own, f);
      out, own := out[n := Field(true, x)], own + f;
    }
    cp := Struct(out);
  }

  method CopyMapping(d: Dict, ghost t: Tree, ghost region: set<object>) returns (cp: Value, ghost own: set<object>)
    requires t.TMapping? && Denotes(Mapping(d), t, region)
    ensures fresh(own) && Holds(cp, t, own) && Closed(own)
    decreases t, 0
  {
    var nd := new Dict();
    ghost var f: set<object> := {};
    var todo := d.m.Keys;
    while todo != {}
      invariant fresh(f) && nd !in f && Closed(f)
      invariant todo <= d.m.Keys && nd.m.Keys == d.m.Keys - todo
      invariant forall k :: k in nd.m ==> Holds(nd.m[k], t.m[k], f)
      decreases todo
    {
      var key :| key in todo;
      var x, g := Copy(d.m[key], t.m[key], region);
      AllHoldMore(nd.m, t.m, f, f + g);
      HoldsMore(x, t.m[key], g, f + g);
      ClosedUnion(f, g);
      f := f + g;
      nd.m := nd.m[key := x];
      todo := todo - {key};
    }
    DictJoins(f, nd);
    cp, own := Mapping(nd), f + {nd};
    AllHoldMore(nd.m, t.m, f, own);
  }

  // ------------------------------------------------------------- separation

  // One hop of an access path a caller outside the package can write.
  datatype Hop = Deref | At(i: nat) | Key(k: string) | FieldNo(i: nat) | Inside

  // What an edit stores: a constant, nil, something read back through the
  // copy, or a new pointer to any of these.
  datatype Source = Lit(n: int) | Null | Read(path: seq<Hop>) | NewPointer(to: Source)

  datatype Edit = Edit(path: seq<Hop>, value: Source)

  // The value at the end of path; a path that leads nowhere reads nil.
  method Get(v: Value, path: seq<Hop>, ghost region: set<object>) returns (x: Value)
    requires Closed(region) && Within(v, region)
    ensures Within(x, region)
    decreases |path|
  {
    if path == [] {
      return v;
    }
    match (v, path[0])
    case (Pointer(p), Deref) => x := Get(p.v, path[1..], region);
    case (Slice(a), At(i)) => if i < a.Length { x := Get(a[i], path[1..], region); } else { x := Nil; }
    case (Mapping(d), Key(k)) => if k in d.m { x := Get(d.m[k], path[1..], region); } else { x := Nil; }
    case (Struct(fields), FieldNo(i)) =>
      if i < |fields| && fields[i].exported { x := Get(fields[i].v, path[1..], region); } else { x := Nil; }
    case (Array(items), At(i)) => if i < |items| { x := Get(items[i], path[1..], region); } else { x := Nil; }
    case (Interface(inner), Inside) => x := Get(inner, path[1..], region);
    case _ => x := Nil;
  }

  // Stores x at the end of path, in place where the path passes through an
  // object, and returns the value v has become.
  method Put(v: Value, path: seq<Hop>, x: Value, ghost region: set<object>) returns (v': Value)
    requires Closed(region) && Within(v, region) && Within(x, region)
    modifies region
    ensures Closed(region) && Within(v', region)
    decreases |path|
  {
    if path == [] {
      return x;
    }
    v' := v;
    match (v, path[0])
    case (Pointer(p), Deref) =>
      var n := Put(p.v, path[1..], x, region);
      p.v := n;
    case (Slice(a), At(i)) =>
      if i < a.Length {
        var n := Put(a[i], path[1..], x, region);
        a[i] := n;
      }
    case (Mapping(d), Key(k)) =>
      var n := x;
      if k in d.m { n := Put(d.m[k], path[1..], x, region); }
      d.m := d.m[k := n];
    case (Struct(fields), FieldNo(i)) =>
      if i < |fields| && fields[i].exported {
        var n := Put(fields[i].v, path[1..], x, region);
        v' := Struct(fields[i := Field(true, n)]);
      }
    case (Array(items), At(i)) =>
      if i < |items| {
        var n := Put(items[i], path[1..], x, region);
        v' := Array(items[i := n]);
      }
    case (Interface(inner), Inside) =>
      var n := Put(inner, path[1..], x, region);
      v' := Interface(n);
    case _ =>
  }

  method Make(root: Value, src: Source, ghost region: set<object>) returns (x: Value, ghost grown: set<object>)
    requires Closed(region) && Within(root, region)
    ensures region <= grown && fresh(grown - region) && Closed(grown) && Within(x, grown)
    decreases src
  {
    grown := region;
    match src
    case Lit(n) => x := Scalar(n);
    case Null => x := Nil;
    case Read(path) => x := Get(root, path, region);
    case NewPointer(to) =>
      var inner, g := Make(root, to, region);
      var c := new Cell(inner);
      CellJoins(g, c);
      x, grown := Pointer(c), g + {c};
  }

  // CloneSettings, and then any sequence of edits through the copy, cycles
  // included: no object that existed before is written (the method modifies
  // nothing), and the original still unfolds to the tree it did.
  method CloneThenEdit(s: Value, ghost t: Tree, ghost region: set<object>, edits: seq<Edit>) returns (cp: Value)
    requires Denotes(s, t, region)
    ensures Denotes(s, t, region)
    ensures edits == [] ==> exists own :: fresh(own) && Denotes(cp, t, own)
  {
    ghost var own;
    cp, own := Copy(s, t, region);
    for n := 0 to |edits|
      invariant fresh(own) && Closed(own) && Within(cp, own)
      invariant n == 0 ==> Denotes(cp, t, own)
    {
      var x;
      ghost var before := own;
      x, own := Make(cp, edits[n].value, own);
      WithinMore(cp, before, own);
      cp := Put(cp, edits[n].path, x, own);
    }
  }

  // -------------------------------------------------- what hidden fields share

  // A path that unexported fields do not stop leads from v to the object o.
  ghost predicate Leads(v: Value, path: seq<Hop>, o: object)
    reads *
    decreases |path|
  {
    if path == [] then
      match v
      case Pointer(p) => o == p
      case Slice(a) => o == a
      case Mapping(d) => o == d
      case _ => false
    else
      match (v, path[0])
      case (Pointer(p), Deref) => Leads(p.v, path[1..], o)
      case (Slice(a), At(i)) => i < a.Length && Leads(a[i], path[1..], o)
      case (Mapping(d), Key(k)) => k in d.m && Leads(d.m[k], path[1..], o)
      case (Struct(fields), FieldNo(i)) => i < |fields| && Leads(fields[i].v, path[1..], o)
      case (Array(items), At(i)) => i < |items| && Leads(items[i], path[1..], o)
      case (Interface(inner), Inside) => Leads(inner, path[1..], o)
      case _ => false
  }

  // The objects a value refers to, and those the hidden fields of a tree do.
  ghost function Refs(v: Value): set<object> {
    match v
    case Pointer(p) => {p}
    case Slice(a) => {a}
    case Mapping(d) => {d}
    case Struct(fields) => set i, o | 0 <= i < |fields| && o in Refs(fields[i].v) :: o
    case Interface(inner) => Refs(inner)
    case Array(items) => set i, o | 0 <= i < |items| && o in Refs(items[i]) :: o
    case _ => {}
  }

  ghost function FieldRefs(f: TField): set<object> {
    match f
    case Open(t) => HiddenRefs(t)
    case Hidden(v) => Refs(v)
  }

  ghost function HiddenRefs(t: Tree): set<object> {
    match t
    case TPointer(to) => HiddenRefs(to)
    case TStruct(fields) => set i, o | 0 <= i < |fields| && o in FieldRefs(fields[i]) :: o
    case TSlice(elems) => set i, o | 0 <= i < |elems| && o in HiddenRefs(elems[i]) :: o
    case TMapping(m) => set k, o | k in m && o in HiddenRefs(m[k]) :: o
    case TInterface(inner) => HiddenRefs(inner)
    case TArray(items) => set i, o | 0 <= i < |items| && o in HiddenRefs(items[i]) :: o
    case _ => {}
  }

  // A value that refers to nothing leads nowhere...
  lemma {:induction false} LeadsFromRefs(v: Value, path: seq<Hop>, o: object)
    requires Leads(v, path, o)
    ensures Refs(v) != {}
    decreases v
  {
    match v
    case Pointer(p) => assert p in Refs(v);
    case Slice(a) => assert a in Refs(v);
    case Mapping(d) => assert d in Refs(v);
    case Struct(fields) =>
      LeadsFromRefs(fields[path[0].i].v, path[1..], o);
      var r :| r in Refs(fields[path[0].i].v);
      assert r in Refs(v);
    case Interface(inner) =>
      LeadsFromRefs(inner, path[1..], o);
      var r :| r in Refs(inner);
      assert r in Refs(v);
    case Array(items) =>
      LeadsFromRefs(items[path[0].i], path[1..], o);
      var r :| r in Refs(items[path[0].i]);
      assert r in Refs(v);
  }

  // ... so a tree without hidden references leads only to what it denotes...
  lemma {:induction false} LeadsInside(v: Value, t: Tree, region: set<object>, path: seq<Hop>, o: object)
    requires Denotes(v, t, region) && Leads(v, path, o)
    ensures o in region || HiddenRefs(t) != {}
    decreases t
  {
    if path != [] {
      match t
      case TPointer(to) =>
        LeadsInside(v.p.v, to, region, path[1..], o);
        if HiddenRefs(to) != {} {
          var r :| r in HiddenRefs(to);
          assert r in HiddenRefs(t);
        }
      case TStruct(fields) =>
        var i := path[0].i;
        if fields[i].Open? {
          LeadsInside(v.fields[i].v, fields[i].t, region, path[1..], o);
        } else {
          LeadsFromRefs(v.fields[i].v, path[1..], o);
        }
        if FieldRefs(fields[i]) != {} {
          var r :| r in FieldRefs(fields[i]);
          assert r in HiddenRefs(t);
        }
      case TSlice(elems) =>
        LeadsInside(v.elems[path[0].i], elems[path[0].i], region, path[1..], o);
        if HiddenRefs(elems[path[0].i]) != {} {
          var r :| r in HiddenRefs(elems[path[0].i]);
          assert r in HiddenRefs(t);
        }
      case TMapping(m) =>
        LeadsInside(v.d.m[path[0].k], m[path[0].k], region, path[1..], o);
        if HiddenRefs(m[path[0].k]) != {} {
          var r :| r in HiddenRefs(m[path[0].k]);
          assert r in HiddenRefs(t);
        }
      case TInterface(inner) =>
        LeadsInside(v.inner, inner, region, path[1..], o);
        if HiddenRefs(inner) != {} {
          var r :| r in HiddenRefs(inner);
          assert r in HiddenRefs(t);
        }
      case TArray(items) =>
        LeadsInside(v.items[path[0].i], items[path[0].i], region, path[1..], o);
        if HiddenRefs(items[path[0].i]) != {} {
          var r :| r in HiddenRefs(items[path[0].i]);
          assert r in HiddenRefs(t);
        }
    }
  }

  // ... and one with some leads to each of them.
  lemma {:induction false} LeadsToRefs(v: Value, o: object) returns (path: seq<Hop>)
    requires o in Refs(v)
    ensures Leads(v, path, o)
    decreases v
  {
    path := [];
    match v
    case Struct(fields) =>
      var i :| 0 <= i < |fields| && o in Refs(fields[i].v);
      var rest := LeadsToRefs(fields[i].v, o);
      path := [FieldNo(i)] + rest;
      assert path[1..] == rest;
    case Interface(inner) =>
      var rest := LeadsToRefs(inner, o);
      path := [Inside] + rest;
      assert path[1..] == rest;
    case Array(items) =>
      var i :| 0 <= i < |items| && o in Refs(items[i]);
      var rest := LeadsToRefs(items[i], o);
      path := [At(i)] + rest;
      assert path[1..] == rest;
    case _ =>
  }

  lemma {:induction false} LeadsToHidden(v: Value, t: Tree, region: set<object>, o: object) returns (path: seq<Hop>)
    requires Denotes(v, t, region) && o in HiddenRefs(t)
    ensures Leads(v, path, o)
    decreases t
  {
    var rest;
    match t
    case TPointer(to) =>
      rest := LeadsToHidden(v.p.v, to, region, o);
      path := [Deref] + rest;
    case TStruct(fields) =>
      var i :| 0 <= i < |fields| && o in FieldRefs(fields[i]);
      if fields[i].Open? {
        rest := LeadsToHidden(v.fields[i].v, fields[i].t, region, o);
      } else {
        rest := LeadsToRefs(v.fields[i].v, o);
      }
      path := [FieldNo(i)] + rest;
    case TSlice(elems) =>
      var i :| 0 <= i < |elems| && o in HiddenRefs(elems[i]);
      rest := LeadsToHidden(v.elems[i], elems[i], region, o);
      path := [At(i)] + rest;
    case TMapping(m) =>
      var k :| k in m && o in HiddenRefs(m[k]);
      rest := LeadsToHidden(v.d.m[k], m[k], region, o);
      path := [Key(k)] + rest;
    case TInterface(inner) =>
      rest := LeadsToHidden(v.inner, inner, region, o);
      path := [Inside] + rest;
    case TArray(items) =>
      var i :| 0 <= i < |items| && o in HiddenRefs(items[i]);
      rest := LeadsToHidden(v.items[i], items[i], region, o);
      path := [At(i)] + rest;
    assert path[1..] == rest;
  }

  // Whatever a value refers to has been allocated.
  lemma {:induction false} RefsExist(v: Value)
    ensures forall o :: o in Refs(v) ==> allocated(o)
    decreases v
  {
    match v
    case Struct(fields) => forall i | 0 <= i < |fields| { RefsExist(fields[i].v); }
    case Interface(inner) => RefsExist(inner);
    case Array(items) => forall i | 0 <= i < |items| { RefsExist(items[i]); }
    case _ =>
  }

  lemma {:induction false} HiddenRefsExist(t: Tree)
    ensures forall o :: o in HiddenRefs(t) ==> allocated(o)
    decreases t
  {
    match t
    case TPointer(to) => HiddenRefsExist(to);
    case TStruct(fields) =>
      forall i | 0 <= i < |fields| ensures forall o :: o in FieldRefs(fields[i]) ==> allocated(o) {
        if fields[i].Open? { HiddenRefsExist(fields[i].t); } else { RefsExist(fields[i].v); }
      }
    case TSlice(elems) => forall i | 0 <= i < |elems| { HiddenRefsExist(elems[i]); }
    case TMapping(m) => forall k | k in m { HiddenRefsExist(m[k]); }
    case TInterface(inner) => HiddenRefsExist(inner);
    case TArray(items) => forall i | 0 <= i < |items| { HiddenRefsExist(items[i]); }
    case _ =>
  }

  // CloneSettings. Nothing any path from the copy reaches, unexported fields
  // included, existed before, if and only if no unexported field of the value
  // holds a reference.
  method Clone(s: Value, ghost t: Tree, ghost region: set<object>) returns (cp: Value)
    requires Denotes(s, t, region)
    ensures exists own :: fresh(own) && Denotes(cp, t, own)
    ensures HiddenRefs(t) == {} ==> forall path, o: object :: Leads(cp, path, o) ==> fresh(o)
    ensures HiddenRefs(t) != {} ==> exists path, o: object :: Leads(cp, path, o) && !fresh(o)
  {
    ghost var own;
    HiddenRefsExist(t);
    cp, own := Copy(s, t, region);
    if HiddenRefs(t) == {} {
      forall path, o: object | Leads(cp, path, o) ensures fresh(o) {
        LeadsInside(cp, t, own, path, o);
      }
    } else {
      ghost var o :| o in HiddenRefs(t);
      ghost var path := LeadsToHidden(cp, t, own, o);
      assert Leads(cp, path, o) && !fresh(o);
    }
  }

  // What unexported fields refer to is shared: their values are the same values,
  // so a pointer in one is the same pointer in the copy.
  method HiddenPointersAreShared() returns (before: Value, after: Value)
    ensures before == Scalar(1) && after == Scalar(2)
  {
    var c := new Cell(Scalar(1));
    var v := Struct([Field(false, Pointer(c))]);
    var cp, own := Copy(v, TStruct([Hidden(Pointer(c))]), {});
    before := c.v;
    cp.fields[0].v.p.v := Scalar(2);
    after := c.v;
  }

  // Two copies of one value unfold to one tree, so Copy preserves everything a
  // tree can show, and a tree determines what is copied.
  lemma {:induction false} TreeIsUnique(v: Value, a: Tree, b: Tree, region: set<object>, other: set<object>)
    requires Denotes(v, a, region) && Denotes(v, b, other)
    ensures a == b
    decreases a
  {
    match a
    case TPointer(to) => TreeIsUnique(v.p.v, to, b.to, region, other);
    case TStruct(fields) =>
      forall i | 0 <= i < |fields| ensures fields[i] == b.fields[i] {
        if fields[i].Open? { TreeIsUnique(v.fields[i].v, fields[i].t, b.fields[i].t, region, other); }
      }
    case TSlice(elems) =>
      forall i | 0 <= i < |elems| ensures elems[i] == b.elems[i] {
        TreeIsUnique(v.elems[i], elems[i], b.elems[i], region, other);
      }
    case TMapping(m) =>
      forall k | k in m ensures m[k] == b.m[k] {
        TreeIsUnique(v.d.m[k], m[k], b.m[k], region, other);
      }
      assert m == b.m;
    case TInterface(inner) => TreeIsUnique(v.inner, inner, b.inner, region, other);
    case TArray(items) =>
      forall i | 0 <= i < |items| ensures items[i] == b.items[i] {
        TreeIsUnique(v.items[i], items[i], b.items[i], region, other);
      }
    case _ =>
  }
}
