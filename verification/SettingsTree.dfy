/**
  A settings document as a tree, and the laws of writing one key of it.
*/
module SettingsTree {
  import opened Common

  datatype Node = Null | Leaf(text: string) | List(items: seq<Node>) | Map(m: map<string, Node>)

  type Path = seq<string>

  const EMPTY := Map(map[])

  function Lookup(n: Node, path: Path): Option<Node> {
    if path == [] then Some(n)
    else if n.Map? && path[0] in n.m then Lookup(n.m[path[0]], path[1..])
    else None
  }

  // The map a walk continues in: what it finds, or a new one in its place.
  function Child(n: Node, seg: string): (c: Node)
    ensures c.Map?
  {
    if n.Map? && seg in n.m && n.m[seg].Map? then n.m[seg] else EMPTY
  }

  // The document after value is stored under path, with every intermediate
  // that is not a map replaced by one.
  function Put(n: Node, path: Path, value: Node): (r: Node)
    requires n.Map?
    ensures path != [] ==> r.Map?
    decreases |path|
  {
    if path == [] then value
    else Map(n.m[path[0] := Put(Child(n, path[0]), path[1..], value)])
  }

  // Neither path runs through the other.
  predicate Apart(p: Path, q: Path) {
    !(p <= q) && !(q <= p)
  }

  lemma {:induction false} PutReadsBack(n: Node, path: Path, value: Node)
    requires n.Map? && path != []
    ensures Lookup(Put(n, path, value), path) == Some(value)
    decreases |path|
  {
    if |path| > 1 { PutReadsBack(Child(n, path[0]), path[1..], value); }
  }

  lemma ApartBelow(p: Path, q: Path)
    requires p != [] && q != [] && p[0] == q[0] && Apart(p, q)
    ensures |p| > 1 && |q| > 1 && Apart(p[1..], q[1..])
  {
    assert p == [p[0]] + p[1..] && q == [q[0]] + q[1..];
  }

  // Every path that does not run through the written one reads as before.
  lemma {:induction false} PutLeavesTheRest(n: Node, path: Path, value: Node, q: Path)
    requires n.Map? && path != [] && Apart(path, q)
    ensures Lookup(Put(n, path, value), q) == Lookup(n, q)
    decreases |path|
  {
    if |path| > 1 && q[0] == path[0] {
      ApartBelow(path, q);
      PutLeavesTheRest(Child(n, path[0]), path[1..], value, q[1..]);
    }
  }

  lemma MapTwice<K, V>(m: map<K, V>, k: K, a: V, b: V)
    ensures m[k := a][k := b] == m[k := b]
  {
  }

  // The last write wins, and repeating a write changes nothing.
  lemma {:induction false} PutPut(n: Node, path: Path, first: Node, value: Node)
    requires n.Map? && path != []
    ensures Put(Put(n, path, first), path, value) == Put(n, path, value)
    decreases |path|
  {
    if |path| == 1 {
      MapTwice(n.m, path[0], first, value);
    } else {
      var c := Child(n, path[0]);
      PutPut(c, path[1..], first, value);
      MapTwice(n.m, path[0], Put(c, path[1..], first), Put(c, path[1..], value));
    }
  }

  // Writing what is already there changes nothing.
  lemma {:induction false} PutSame(n: Node, path: Path, value: Node)
    requires n.Map? && Lookup(n, path) == Some(value)
    ensures Put(n, path, value) == n
    decreases |path|
  {
    if path != [] {
      assert Lookup(n.m[path[0]], path[1..]) == Some(value);
      if |path| > 1 { PutSame(n.m[path[0]], path[1..], value); }
      assert n.m[path[0] := n.m[path[0]]] == n.m;
    }
  }

  lemma MapBoth<K, V>(m: map<K, V>, k: K, a: V, l: K, b: V)
    requires k != l
    ensures m[k := a][l := b] == m[l := b][k := a]
  {
  }

  lemma PutBelow(n: Node, p: Path, v: Node, q: Path, w: Node)
    requires n.Map? && |p| > 1 && |q| > 1 && p[0] == q[0]
    ensures Put(Put(n, p, v), q, w) == Map(n.m[p[0] := Put(Put(Child(n, p[0]), p[1..], v), q[1..], w)])
  {
    var a := Put(Child(n, p[0]), p[1..], v);
    MapTwice(n.m, p[0], a, Put(a, q[1..], w));
  }

  lemma PutBeside(n: Node, p: Path, v: Node, q: Path, w: Node)
    requires n.Map? && p != [] && q != [] && p[0] != q[0]
    ensures Put(Put(n, p, v), q, w) == Map(n.m[p[0] := Put(n, p, v).m[p[0]]][q[0] := Put(n, q, w).m[q[0]]])
  {
    assert Child(Put(n, p, v), q[0]) == Child(n, q[0]);
  }

  // Writes to paths apart from each other commute.
  lemma {:induction false} PutsCommute(n: Node, p: Path, v: Node, q: Path, w: Node)
    requires n.Map? && p != [] && q != [] && Apart(p, q)
    ensures Put(Put(n, p, v), q, w) == Put(Put(n, q, w), p, v)
    decreases |p|
  {
    if p[0] == q[0] {
      ApartBelow(p, q);
      var c := Child(n, p[0]);
      PutsCommute(c, p[1..], v, q[1..], w);
      PutBelow(n, p, v, q, w);
      PutBelow(n, q, w, p, v);
    } else {
      PutBeside(n, p, v, q, w);
      PutBeside(n, q, w, p, v);
      MapBoth(n.m, p[0], Put(n, p, v).m[p[0]], q[0], Put(n, q, w).m[q[0]]);
    }
  }

  // No proper, non-empty prefix of path holds anything but a map.
  predicate Clear(n: Node, path: Path)
    requires n.Map?
  {
    |path| <= 1 || path[0] !in n.m || (n.m[path[0]].Map? && Clear(n.m[path[0]], path[1..]))
  }

  // Setting q to x survives a write to path.
  predicate Survives(n: Node, path: Path, value: Node, q: Path, x: Node)
    requires n.Map? && path != []
  {
    Lookup(n, q) == Some(x) && !x.Map? && !(path <= q) ==> Lookup(Put(n, path, value), q) == Some(x)
  }

  lemma {:induction false} ClearKeeps(n: Node, path: Path, value: Node, q: Path, x: Node)
    requires n.Map? && path != [] && Clear(n, path)
    ensures Survives(n, path, value, q, x)
  {
    if Lookup(n, q) == Some(x) && !x.Map? && !(path <= q) && q != [] && q[0] == path[0] && |path| > 1 {
      assert !(path[1..] <= q[1..]) by {
        assert path == [path[0]] + path[1..] && q == [q[0]] + q[1..];
      }
      ClearKeeps(Child(n, path[0]), path[1..], value, q[1..], x);
    }
  }

  lemma {:induction false} LostSetting(n: Node, path: Path, value: Node) returns (q: Path, x: Node)
    requires n.Map? && path != [] && !Clear(n, path)
    ensures Lookup(n, q) == Some(x) && !x.Map? && !(path <= q) && q <= path && q != []
    ensures Lookup(Put(n, path, value), q) != Some(x)
  {
    if n.m[path[0]].Map? {
      var rest;
      rest, x := LostSetting(n.m[path[0]], path[1..], value);
      q := [path[0]] + rest;
      assert q[1..] == rest && path == [path[0]] + path[1..];
    } else {
      q, x := [path[0]], n.m[path[0]];
      assert Lookup(x, q[1..]) == Some(x);
    }
  }

  // A write loses no setting beside the one it writes exactly when nothing but
  // maps stands on the way to it.
  lemma LosesNothingIffClear(n: Node, path: Path, value: Node)
    requires n.Map? && path != []
    ensures Clear(n, path) <==> forall q, x :: Survives(n, path, value, q, x)
  {
    if Clear(n, path) {
      forall q, x ensures Survives(n, path, value, q, x) {
        ClearKeeps(n, path, value, q, x);
      }
    } else {
      var q, x := LostSetting(n, path, value);
      assert !Survives(n, path, value, q, x);
    }
  }
}
