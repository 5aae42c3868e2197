/**
  Setting one key of the live settings: the settings are marshalled, one entry of
  the raw document is written, and the result replaces the settings only if it
  decodes and introduces no error at that key.
*/
module SetField {
  import opened Common
  import opened SettingsTree
  import opened SettingsSchema
  import opened ProjectOverlay
  import Texts

  // ------------------------------------------------- the settings struct

  // A nested struct value; hidden fields are the ones no document carries.
  datatype Conf = Value(n: Node) | Struct(fields: map<string, Conf>, hidden: map<string, Node>)

  predicate SameType(a: Conf, b: Conf) {
    match a
    case Value(_) => b.Value?
    case Struct(fields, hidden) =>
      && b.Struct? && b.fields.Keys == fields.Keys && b.hidden.Keys == hidden.Keys
      && forall k :: k in fields ==> SameType(fields[k], b.fields[k])
  }

  // dst with the hidden fields of src, in every nested struct.
  function Carry(dst: Conf, src: Conf): (r: Conf)
  {
    if dst.Struct? && src.Struct? then
      Struct(map k | k in dst.fields :: if k in src.fields then Carry(dst.fields[k], src.fields[k])
        else dst.fields[k], src.hidden)
    else dst
  }

  // What of a struct a document shows.
  function Visible(c: Conf): Node {
    match c
    case Value(n) => n
    case Struct(fields, _) => Map(map k | k in fields :: Visible(fields[k]))
  }

  // The hidden fields of the struct at path.
  function HiddenAt(c: Conf, path: Path): Option<map<string, Node>>
    decreases |path|
  {
    if c.Value? then None
    else if path == [] then Some(c.hidden)
    else if path[0] in c.fields then HiddenAt(c.fields[path[0]], path[1..])
    else None
  }

  // Carrying over keeps what the document says and what it cannot say.
  lemma {:induction false} CarryKeepsBoth(dst: Conf, src: Conf)
    requires SameType(dst, src)
    ensures Visible(Carry(dst, src)) == Visible(dst)
    ensures forall path :: HiddenAt(Carry(dst, src), path) == HiddenAt(src, path)
  {
    if dst.Struct? {
      forall k | k in dst.fields
        ensures Visible(Carry(dst.fields[k], src.fields[k])) == Visible(dst.fields[k])
        ensures forall path :: HiddenAt(Carry(dst.fields[k], src.fields[k]), path) == HiddenAt(src.fields[k], path)
      {
        CarryKeepsBoth(dst.fields[k], src.fields[k]);
      }
      assert Visible(Carry(dst, src)).m == Visible(dst).m;
    }
  }

  // ------------------------------------------------- validation

  datatype Issue = Issue(severe: bool, key: string, message: string)

  // A key as it is written, its segments joined by dots.
  function Dotted(path: Path): string {
    Texts.Join(path, '.')
  }

  predicate Concerns(issue: Issue, key: string) {
    issue.key == key || key + "." <= issue.key || key + "[" <= issue.key
  }

  predicate Introduced(before: seq<Issue>, issue: Issue, key: string) {
    issue.severe && issue !in before && Concerns(issue, key)
  }

  method IntroducedErrors(before: seq<Issue>, after: seq<Issue>, key: string) returns (out: seq<Issue>)
    ensures out == Filter(after, issue => Introduced(before, issue, key))
  {
    var seen: set<Issue> := {};
    for i := 0 to |before|
      invariant forall x :: x in seen <==> x in before[..i]
    {
      seen := seen + {before[i]};
    }
    assert before[..|before|] == before;
    out := [];
    for i := 0 to |after|
      invariant out == Filter(after[..i], issue => Introduced(before, issue, key))
    {
      assert after[..i + 1][..i] == after[..i];
      if after[i].severe && after[i] !in seen && Concerns(after[i], key) {
        out := out + [after[i]];
      }
    }
    assert after[..|after|] == after;
  }

  // ------------------------------------------------- what one edit writes

  // The codec, the validator and the value parsers, none of which is looked into.
  datatype Env = Env(
    root: Shape,
    marshal: Conf -> map<string, Node>,
    decode: Node -> Option<Conf>,
    validate: Conf -> seq<Issue>,
    container: (string, Option<Shape>, Node) -> Option<Node>,
    addition: (string, Option<Shape>) -> Option<seq<Node>>,
    like: (string, Node) -> Node,
    kind: (string, Shape) -> Node)

  datatype Error = NoSuchKey | InvalidValue

  datatype Edit = Edit(path: Path, value: Node)

  predicate Container(n: Node) {
    n.List? || n.Map?
  }

  // A list operation applies: the parent path holds a list, or nothing where a
  // list is declared.
  predicate ListEdit(env: Env, raw: Node, key: Path) {
    && ListOp(key) && Holder(raw, Parent(key)).Some?
    && var at := ValueAt(raw, Parent(key));
       at.List? || (at.Null? && Resolve(env.root, Parent(key)) == Some(Listing))
  }

  // The new value of the leaf of a key that can be reached.
  function LeafValue(env: Env, key: Path, value: string, existing: Option<Node>): Result<Node, Error>
  {
    var declared := Resolve(env.root, key);
    if existing.None? && declared.None? then Err(NoSuchKey)
    else if (declared.Some? && (declared.value.Listing? || declared.value.Table?))
      || (existing.Some? && Container(existing.value)) then
      match env.container(value, declared, if existing.Some? then existing.value else Null)
      case None => Err(InvalidValue)
      case Some(x) => Ok(x)
    else if existing.Some? then Ok(env.like(value, existing.value))
    else Ok(env.kind(value, declared.value))
  }

  // The list after `<list>.add` or `<list>.clear`.
  function ListValue(env: Env, key: Path, value: string, at: Node): Result<Node, Error>
    requires ListOp(key)
  {
    if Last(key) == "clear" then Ok(List([]))
    else
      match env.addition(value, Resolve(env.root, Parent(key)))
      case None => Err(InvalidValue)
      case Some(more) => Ok(List((if at.List? then at.items else []) + more))
  }

  // Nothing but maps stands on the way to the last segment, or known ones that
  // are missing and may be created.
  predicate Writable(t: Node, key: Path, known: bool)
    requires t.Map? && key != []
  {
    Clear(t, key) && (Holder(t, key).Some? || known)
  }

  // The entry one call writes, or why it writes none.
  function Plan(env: Env, raw: Node, key: Path, value: string): Result<Edit, Error>
    requires raw.Map? && key != []
  {
    if ListEdit(env, raw, key) then
      match ListValue(env, key, value, ValueAt(raw, Parent(key)))
      case Err(e) => Err(e)
      case Ok(x) => Ok(Edit(Parent(key), x))
    else if !Writable(raw, key, Resolve(env.root, key).Some?) then Err(NoSuchKey)
    else
      match LeafValue(env, key, value, Lookup(raw, key))
      case Err(e) => Err(e)
      case Ok(x) => Ok(Edit(key, x))
  }

  // The settings after the raw document is written back.
  function Commit(env: Env, conf: Conf, raw: Node, key: Path): Result<Conf, Error> {
    match env.decode(raw)
    case None => Err(InvalidValue)
    case Some(candidate) =>
      if Filter(env.validate(candidate), issue => Introduced(env.validate(conf), issue, Dotted(key))) != [] then
        Err(InvalidValue)
      else Ok(Carry(candidate, conf))
  }

  function Outcome(env: Env, conf: Conf, key: Path, value: string): Result<Conf, Error>
    requires key != []
  {
    var raw := Map(env.marshal(conf));
    match Plan(env, raw, key, value)
    case Err(e) => Err(e)
    case Ok(edit) => Commit(env, conf, Put(raw, edit.path, edit.value), edit.path)
  }

  // ------------------------------------------------- the call

  // With n around it, writing rest below c is writing key in t.
  ghost predicate Along(t: Node, key: Path, known: bool, n: Node, path: Path, c: Node, rest: Path)
    requires t.Map? && key != []
  {
    && n.Map? && c.Map? && rest != []
    && Lookup(t, key) == Lookup(c, rest) && (Writable(t, key, known) <==> Writable(c, rest, known))
    && forall x :: Put(n, path, Put(c, rest, x)) == Put(t, key, x)
  }

  // Looking up the holder goes down with the path.
  lemma HolderBelow(c: Node, rest: Path)
    requires c.Map? && |rest| > 1
    ensures rest[0] in c.m ==> Holder(c, rest) == Holder(c.m[rest[0]], rest[1..])
    ensures rest[0] !in c.m ==> Holder(c, rest) == None && Lookup(c, rest) == None && Clear(c, rest)
    ensures rest[0] in c.m && !c.m[rest[0]].Map? ==> Holder(c, rest) == None && !Clear(c, rest)
    ensures Lookup(EMPTY, rest[1..]) == None && Clear(EMPTY, rest[1..])
  {
    assert Parent(rest)[0] == rest[0] && Parent(rest)[1..] == Parent(rest[1..]);
  }

  lemma AlongDeeper(t: Node, key: Path, known: bool, n: Node, path: Path, c: Node, rest: Path)
    requires t.Map? && key != [] && Along(t, key, known, n, path, c, rest) && |rest| > 1
    requires if rest[0] in c.m then c.m[rest[0]].Map? else known
    ensures Along(t, key, known, Put(n, path, Map(c.m[rest[0] := Child(c, rest[0])])), path + [rest[0]],
      Child(c, rest[0]), rest[1..])
  {
    HolderBelow(c, rest);
    forall x ensures Put(Put(n, path, Map(c.m[rest[0] := Child(c, rest[0])])), path + [rest[0]],
      Put(Child(c, rest[0]), rest[1..], x)) == Put(t, key, x) {
      PutStep(n, path, c, rest, x);
    }
  }

  // A plain value, or a gap that is not declared, ends the walk.
  lemma AlongEnds(t: Node, key: Path, known: bool, n: Node, path: Path, c: Node, rest: Path)
    requires t.Map? && key != [] && Along(t, key, known, n, path, c, rest) && |rest| > 1
    requires if rest[0] in c.m then !c.m[rest[0]].Map? else !known
    ensures !Writable(t, key, known)
  {
    HolderBelow(c, rest);
  }

  // Walks to the map the last segment is an entry of, creating the maps that the
  // marshalled settings leave out when the key is a declared one.
  method Locate(raw: Dict, key: Path, known: bool, ghost t: Node, ghost region: set<Dict>)
      returns (r: Option<Dict>, ghost all: set<Dict>, ghost n: Node, ghost c: Node)
    requires key != [] && Holds(Sub(raw), [], t, region)
    modifies region
    ensures r.Some? <==> Writable(t, key, known)
    ensures r.Some? ==> fresh(all - region) && Cursor(raw, n, all, Parent(key), r.value, c)
    ensures r.Some? ==> Along(t, key, known, n, Parent(key), c, [Last(key)])
  {
    var cur := raw;
    var i := 0;
    all, n, c := region, t, t;
    ghost var way := Parent(key);
    while i < |key| - 1
      invariant 0 <= i < |key| && fresh(all - region)
      invariant Cursor(raw, n, all, way[..i], cur, c)
      invariant Along(t, key, known, n, way[..i], c, key[i..])
    {
      var seg := key[i];
      ghost var path, rest := way[..i], key[i..];
      assert rest[0] == seg && rest[1..] == key[i + 1..] && path + [seg] == way[..i + 1];
      if seg !in cur.m {
        if !known {
          AlongEnds(t, key, known, n, path, c, rest);
          return None, all, n, c;
        }
      } else {
        assert Holds(cur.m[seg], path + [seg], c.m[seg], all);
        if !cur.m[seg].Sub? {
          AlongEnds(t, key, known, n, path, c, rest);
          return None, all, n, c;
        }
      }
      AlongDeeper(t, key, known, n, path, c, rest);
      cur, all := Enter(raw, cur, seg, n, path, c, all);
      n, c, i := Put(n, path, Map(c.m[seg := Child(c, seg)])), Child(c, seg), i + 1;
    }
    assert way[..i] == way && key[i..] == [Last(key)];
    assert Writable(c, [Last(key)], known);
    r := Some(cur);
  }

  // Reads the tree a value stands for, if any.
  method Existing(d: Dict, k: string, ghost c: Node, ghost region: set<Dict>) returns (r: Option<Node>)
    requires Holds(Sub(d), d.at, c, region)
    ensures r == Lookup(c, [k])
  {
    if k !in d.m { return None; }
    assert Holds(d.m[k], d.at + [k], c.m[k], region);
    var x := Marshal(d.m[k], d.at + [k], c.m[k], region);
    r := Some(x);
    assert [k][1..] == [];
  }

  // The document now has the planned edit, or the plan was refused.
  ghost predicate Written(raw: Dict, t: Node, plan: Result<Edit, Error>, r: Result<Path, Error>, all: set<Dict>)
    reads all
  {
    match plan
    case Err(e) => r == Err(e)
    case Ok(edit) => t.Map? && r == Ok(edit.path) && Holds(Sub(raw), [], Put(t, edit.path, edit.value), all)
  }

  // Writing an entry of a map that is there is writing its path.
  lemma {:induction false} PutHere(t: Node, path: Path, k: string, x: Node)
    requires t.Map? && Lookup(t, path).Some? && Lookup(t, path).value.Map?
    ensures Put(t, path, Put(Lookup(t, path).value, [k], x)) == Put(t, path + [k], x)
    decreases |path|
  {
    if path == [] {
      assert path + [k] == [k];
    } else {
      assert (path + [k])[0] == path[0] && (path + [k])[1..] == path[1..] + [k];
      assert t.m[path[0]].Map? by { assert path[1..] == [] ==> Lookup(t.m[path[0]], path[1..]) == Some(t.m[path[0]]); }
      PutHere(t.m[path[0]], path[1..], k, x);
    }
  }

  // `<list>.add` and `<list>.clear`: nothing when they do not apply.
  method EditList(env: Env, raw: Dict, key: Path, value: string, ghost t: Node, ghost region: set<Dict>)
      returns (applies: bool, r: Result<Path, Error>, ghost all: set<Dict>)
    requires key != [] && Holds(Sub(raw), [], t, region)
    modifies region
    ensures applies <==> ListEdit(env, t, key)
    ensures !applies ==> all == region && Holds(Sub(raw), [], t, region)
    ensures applies ==> Written(raw, t, Plan(env, t, key, value), r, all)
  {
    applies, r, all := false, Err(NoSuchKey), region;
    if !ListOp(key) { return; }
    var way := Parent(key);
    var holder := Overlay.NavigateToParent(raw, way, t, region);
    if holder.None? { return; }
    ghost var c := Holder(t, way).value;
    LookupLast(t, way);
    var at := Existing(holder.value, Last(way), c, region);
    assert [Last(way)][1..] == [];
    var declared := Resolve(env.root, way);
    if !(at.Some? && at.value.List?) && !((at.None? || at.value.Null?) && declared == Some(Listing)) { return; }
    applies := true;
    var x := ListValue(env, key, value, if at.Some? then at.value else Null);
    if x.Err? { return true, Err(x.error), region; }
    assert Parent(way) + [Last(way)] == way;
    all := Place(raw, holder.value, Last(way), Plain(x.value), t, Parent(way), c, region, x.value, {});
    PutHere(t, Parent(way), Last(way), x.value);
    r := Ok(way);
  }

  // Writes the leaf of a key.
  method EditLeaf(env: Env, raw: Dict, key: Path, value: string, ghost t: Node, ghost region: set<Dict>)
      returns (r: Result<Path, Error>, ghost all: set<Dict>)
    requires key != [] && Holds(Sub(raw), [], t, region) && !ListEdit(env, t, key)
    modifies region
    ensures Written(raw, t, Plan(env, t, key, value), r, all)
  {
    var declared := Resolve(env.root, key);
    var cur;
    ghost var n, c;
    cur, all, n, c := Locate(raw, key, declared.Some?, t, region);
    if cur.None? { return Err(NoSuchKey), all; }
    var leaf := Last(key);
    var existing := Existing(cur.value, leaf, c, all);
    var x := LeafValue(env, key, value, existing);
    if x.Err? { return Err(x.error), all; }
    assert Parent(key) + [leaf] == key;
    var w, held := Unmarshal(x.value, key);
    all := Place(raw, cur.value, leaf, w, n, Parent(key), c, all, x.value, held);
    r := Ok(key);
  }

  class Live {
    var conf: Conf

    method CommitRaw(env: Env, raw: Node, key: Path) returns (r: Result<(), Error>)
      modifies this
      ensures match Commit(env, old(conf), raw, key)
              case Err(e) => r == Err(e) && conf == old(conf)
              case Ok(after) => r == Ok(()) && conf == after
    {
      var candidate := env.decode(raw);
      if candidate.None? { return Err(InvalidValue); }
      var introduced := IntroducedErrors(env.validate(conf), env.validate(candidate.value), Dotted(key));
      if |introduced| > 0 { return Err(InvalidValue); }
      conf := Carry(candidate.value, conf);
      r := Ok(());
    }

    // Every refusal leaves the settings as they were.
    method SetField(env: Env, key: Path, value: string) returns (r: Result<(), Error>)
      requires key != []
      modifies this
      ensures match Outcome(env, old(conf), key, value)
              case Err(e) => r == Err(e) && conf == old(conf)
              case Ok(after) => r == Ok(()) && conf == after
    {
      ghost var t := Map(env.marshal(conf));
      var raw, region := Unmarshal(Map(env.marshal(conf)), []);
      var applies, edited, all := EditList(env, raw.d, key, value, t, region);
      if !applies {
        edited, all := EditLeaf(env, raw.d, key, value, t, region);
      }
      if edited.Err? { return Err(edited.error); }
      ghost var edit := Plan(env, t, key, value).value;
      var written := Marshal(raw, [], Put(t, edit.path, edit.value), all);
      r := CommitRaw(env, written, edited.value);
    }
  }

  // ------------------------------------------------- what a call can and cannot do

  lemma {:induction false} HeldIsClear(t: Node, path: Path)
    requires t.Map? && path != [] && Holder(t, path).Some?
    ensures Clear(t, path)
    decreases |path|
  {
    if |path| > 1 {
      HolderBelow(t, path);
      HeldIsClear(t.m[path[0]], path[1..]);
    }
  }

  // A call that is not refused loses no setting but the one it writes.
  lemma EditLosesNothing(env: Env, raw: Node, key: Path, value: string, q: Path, x: Node)
    requires raw.Map? && key != [] && Plan(env, raw, key, value).Ok?
    ensures var edit := Plan(env, raw, key, value).value;
      edit.path != [] && Clear(raw, edit.path) && Survives(raw, edit.path, edit.value, q, x)
  {
    var edit := Plan(env, raw, key, value).value;
    if ListEdit(env, raw, key) { HeldIsClear(raw, Parent(key)); }
    ClearKeeps(raw, edit.path, edit.value, q, x);
  }

  // The raw document holds a list under a key not declared as one, or a map
  // under one that is.
  predicate Misfit(env: Env, raw: Node, list: Path)
    requires list != []
  {
    var declared := Resolve(env.root, list) == Some(Listing);
    match Lookup(raw, list)
    case Some(List(_)) => !declared
    case Some(Map(_)) => declared
    case _ => false
  }

  // Where a key below list is written, or is there, list holds a map or nothing.
  lemma {:induction false} UnderTheList(raw: Node, list: Path, last: string)
    requires raw.Map? && list != [] && Clear(raw, list + [last])
    ensures Lookup(raw, list) == None || Lookup(raw, list).value.Map?
    ensures Lookup(raw, list) == None ==> Holder(raw, list + [last]) == None
    decreases |list|
  {
    var key := list + [last];
    assert key[0] == list[0] && key[1..] == list[1..] + [last] && Parent(key) == list;
    if list[0] in raw.m {
      if |list| > 1 {
        UnderTheList(raw.m[list[0]], list[1..], last);
        HolderBelow(raw, key);
      } else {
        assert Lookup(raw.m[list[0]], list[1..]) == Some(raw.m[list[0]]);
      }
    }
  }

  // The setting a call writes is the one its key is said to name, exactly when
  // the raw document fits the declared types there.
  lemma WritesTheNamedSettingIff(env: Env, raw: Node, key: Path, value: string)
    requires raw.Map? && key != [] && Plan(env, raw, key, value).Ok?
    ensures Plan(env, raw, key, value).value.path == SettingPath(env.root, key) <==>
      !(ListOp(key) && Misfit(env, raw, Parent(key)))
  {
    if ListOp(key) {
      var list := Parent(key);
      LookupLast(raw, list);
      assert list + [Last(key)] == key;
      if !ListEdit(env, raw, key) {
        ResolvePrefix(env.root, list, Last(key));
        UnderTheList(raw, list, Last(key));
      }
    }
  }

  lemma {:induction false} FilterIsEmptyIff<T>(s: seq<T>, keep: T -> bool)
    ensures Filter(s, keep) == [] <==> forall x :: x in s ==> !keep(x)
  {
    if s != [] {
      FilterIsEmptyIff(s[..|s| - 1], keep);
      assert s == s[..|s| - 1] + [s[|s| - 1]];
    }
  }

  // An edit that decodes is refused only for a new error about its own key: an
  // error elsewhere, or one that was there before, never blocks it.
  lemma RefusedOnlyForItsOwnKey(env: Env, conf: Conf, raw: Node, key: Path)
    requires env.decode(raw).Some?
    ensures Commit(env, conf, raw, key).Err? <==>
            exists issue :: issue in env.validate(env.decode(raw).value) &&
              Introduced(env.validate(conf), issue, Dotted(key))
  {
    FilterIsEmptyIff(env.validate(env.decode(raw).value), issue => Introduced(env.validate(conf), issue, Dotted(key)));
  }

  // Some error-level issue is new, and about this key or something beneath it.
  ghost predicate NewErrorAt(before: seq<Issue>, after: seq<Issue>, at: string) {
    exists issue :: issue in after && issue !in before && issue.severe &&
      (issue.key == at || at + "." <= issue.key || at + "[" <= issue.key)
  }

  // A call is refused if and only if its edit cannot be planned, the edited
  // document does not decode, or it has a new error at the setting it writes.
  lemma CallIsRefusedIff(env: Env, conf: Conf, key: Path, value: string)
    requires key != []
    ensures var raw := Map(env.marshal(conf));
      Outcome(env, conf, key, value).Err? <==>
        match Plan(env, raw, key, value)
        case Err(_) => true
        case Ok(edit) =>
          var after := env.decode(Put(raw, edit.path, edit.value));
          after.None? || NewErrorAt(env.validate(conf), env.validate(after.value), Dotted(edit.path))
  {
    var raw := Map(env.marshal(conf));
    match Plan(env, raw, key, value)
    case Err(_) =>
    case Ok(edit) =>
      var after := Put(raw, edit.path, edit.value);
      if env.decode(after).Some? { RefusedOnlyForItsOwnKey(env, conf, after, edit.path); }
  }

  // ------------------------------------------------- what an accepted call writes

  // A list stands under the path, or nothing where a list is declared.
  predicate OpensList(env: Env, raw: Node, list: Path)
    requires list != []
  {
    var declared := Resolve(env.root, list) == Some(Listing);
    match Lookup(raw, list)
    case Some(List(_)) => true
    case Some(Null) => declared
    case None => declared && Holder(raw, list).Some?
    case _ => false
  }

  function ItemsAt(raw: Node, list: Path): seq<Node> {
    match Lookup(raw, list)
    case Some(List(items)) => items
    case _ => []
  }

  // `<list>.clear` leaves the empty list, and `<list>.add` a list that begins with
  // all the old items and goes on with what the value parses to; it is refused
  // only when the value does not parse.
  lemma ListOpsEditTheList(env: Env, raw: Node, list: Path, op: string, value: string)
    requires raw.Map? && list != [] && OpensList(env, raw, list) && (op == "add" || op == "clear")
    ensures var plan, more := Plan(env, raw, list + [op], value), env.addition(value, Resolve(env.root, list));
      && (plan.Ok? <==> op == "clear" || more.Some?) && (plan.Err? ==> plan.error == InvalidValue)
      && (plan.Ok? ==>
            var after, old' := Put(raw, plan.value.path, plan.value.value), ItemsAt(raw, list);
            && Lookup(after, list).Some? && Lookup(after, list).value.List?
            && (op == "clear" ==> ItemsAt(after, list) == [])
            && (op == "add" ==> old' <= ItemsAt(after, list) && ItemsAt(after, list)[|old'|..] == more.value))
  {
    var key := list + [op];
    assert Parent(key) == list && Last(key) == op && ListOp(key);
    assert |"add"| != |"clear"|;
    LookupLast(raw, list);
    var plan := Plan(env, raw, key, value);
    if plan.Ok? { PutReadsBack(raw, list, plan.value.value); }
  }

  predicate WholeValue(declared: Option<Shape>, at: Option<Node>) {
    || (declared.Some? && (declared.value.Listing? || declared.value.Table?))
    || (at.Some? && (at.value.List? || at.value.Map?))
  }

  // Any other call is refused as naming no setting exactly when something plain
  // stands on its way or the key is neither there nor declared. Otherwise a list
  // or map is parsed as a whole, a value that is there is parsed to its like, and
  // one that is not to its declared kind; and the key reads as that.
  lemma OtherCallsWriteTheLeaf(env: Env, raw: Node, key: Path, value: string)
    requires raw.Map? && key != []
    requires !(|key| >= 2 && (Last(key) == "add" || Last(key) == "clear") && OpensList(env, raw, Parent(key)))
    ensures var plan, at, declared := Plan(env, raw, key, value), Lookup(raw, key), Resolve(env.root, key);
      var whole := env.container(value, declared, if at.Some? then at.value else Null);
      && (plan == Err(NoSuchKey) <==> !Clear(raw, key) || (at.None? && declared.None?))
      && (plan == Err(InvalidValue) ==> WholeValue(declared, at) && whole.None?)
      && (plan.Ok? ==>
            var after := Lookup(Put(raw, plan.value.path, plan.value.value), key);
            if WholeValue(declared, at) then after == whole && whole.Some?
            else if at.Some? then after == Some(env.like(value, at.value))
            else after == Some(env.kind(value, declared.value)))
  {
    if |key| >= 2 { LookupLast(raw, Parent(key)); }
    LookupLast(raw, key);
    var plan := Plan(env, raw, key, value);
    if plan.Ok? { PutReadsBack(raw, key, plan.value.value); }
  }

  // The settings after a call say what the edited document says, and keep every
  // field no document carries.
  lemma AcceptedEditKeepsHiddenFields(env: Env, conf: Conf, key: Path, value: string, path: Path)
    requires key != [] && Outcome(env, conf, key, value).Ok?
    requires forall n :: env.decode(n).Some? ==> SameType(env.decode(n).value, conf)
    ensures var raw := Map(env.marshal(conf));
      var edit := Plan(env, raw, key, value);
      && edit.Ok? && env.decode(Put(raw, edit.value.path, edit.value.value)).Some?
      && Visible(Outcome(env, conf, key, value).value) ==
         Visible(env.decode(Put(raw, edit.value.path, edit.value.value)).value)
      && HiddenAt(Outcome(env, conf, key, value).value, path) == HiddenAt(conf, path)
  {
    var raw := Map(env.marshal(conf));
    var edit := Plan(env, raw, key, value).value;
    CarryKeepsBoth(env.decode(Put(raw, edit.path, edit.value)).value, conf);
  }
}
