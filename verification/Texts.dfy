/** Splitting a text at a separator and joining the pieces again. */
module Texts {

  // The pieces of a text with one more character.
  function Extend(pieces: seq<string>, sep: char, c: char): seq<string>
    requires pieces != []
  {
    if c == sep then pieces + [""] else pieces[..|pieces| - 1] + [pieces[|pieces| - 1] + [c]]
  }

  // The pieces of s between its separators; a text with none is one piece.
  function Split(s: string, sep: char): (r: seq<string>)
    ensures r != [] && forall i :: 0 <= i < |r| ==> sep !in r[i]
  {
    if s == "" then [""] else Extend(Split(s[..|s| - 1], sep), sep, s[|s| - 1])
  }

  function Join(parts: seq<string>, sep: char): string {
    if parts == [] then "" else if |parts| == 1 then parts[0]
    else parts[0] + [sep] + Join(parts[1..], sep)
  }

  lemma {:induction false} SplitOne(s: string, sep: char)
    requires sep !in s
    ensures Split(s, sep) == [s]
  {
    if s != "" {
      var t, c := s[..|s| - 1], s[|s| - 1];
      assert s == t + [c] && c in s;
      SplitOne(t, sep);
      assert Extend([t], sep, c) == [t + [c]];
    }
  }

  lemma SplitExtends(s: string, sep: char, c: char)
    ensures Split(s + [c], sep) == Extend(Split(s, sep), sep, c)
  {
    assert (s + [c])[..|s + [c]| - 1] == s;
  }

  lemma ExtendBehind(done: seq<string>, pieces: seq<string>, sep: char, c: char)
    requires pieces != []
    ensures Extend(done + pieces, sep, c) == done + Extend(pieces, sep, c)
  {
  }

  // The first piece of a text is what stands before its first separator.
  lemma {:induction false} SplitAtFirst(s: string, sep: char, i: nat)
    requires i < |s| && s[i] == sep && sep !in s[..i]
    ensures Split(s, sep) == [s[..i]] + Split(s[i + 1..], sep)
  {
    var t, c := s[..|s| - 1], s[|s| - 1];
    assert s == t + [c];
    SplitExtends(t, sep, c);
    if i == |s| - 1 {
      assert s[..i] == t && s[i + 1..] == "";
      SplitOne(t, sep);
    } else {
      assert t[..i] == s[..i] && s[i + 1..] == t[i + 1..] + [c];
      SplitAtFirst(t, sep, i);
      SplitExtends(t[i + 1..], sep, c);
      ExtendBehind([t[..i]], Split(t[i + 1..], sep), sep, c);
    }
  }

  // Splitting a longer text goes on in the last piece.
  lemma {:induction false} SplitJoins(a: string, b: string, sep: char)
    ensures Split(a + b, sep) ==
      Split(a, sep)[..|Split(a, sep)| - 1] + Split(Split(a, sep)[|Split(a, sep)| - 1] + b, sep)
    decreases |b|
  {
    var done, last := Split(a, sep)[..|Split(a, sep)| - 1], Split(a, sep)[|Split(a, sep)| - 1];
    if b == "" {
      assert a + b == a && last + b == last;
      SplitOne(last, sep);
    } else {
      var t, c := b[..|b| - 1], b[|b| - 1];
      assert a + b == (a + t) + [c] && last + b == (last + t) + [c];
      SplitJoins(a, t, sep);
      SplitExtends(a + t, sep, c);
      SplitExtends(last + t, sep, c);
      ExtendBehind(done, Split(last + t, sep), sep, c);
    }
  }

  // Joined pieces split into themselves.
  lemma {:induction false} SplitOfJoin(parts: seq<string>, sep: char)
    requires parts != [] && forall i :: 0 <= i < |parts| ==> sep !in parts[i]
    ensures Split(Join(parts, sep), sep) == parts
    decreases |parts|
  {
    if |parts| == 1 {
      SplitOne(parts[0], sep);
    } else {
      var s := Join(parts, sep);
      assert s[..|parts[0]|] == parts[0] && s[|parts[0]| + 1..] == Join(parts[1..], sep);
      SplitAtFirst(s, sep, |parts[0]|);
      SplitOfJoin(parts[1..], sep);
    }
  }

  lemma {:induction false} JoinExtends(pieces: seq<string>, sep: char, c: char)
    requires pieces != []
    ensures Join(Extend(pieces, sep, c), sep) == Join(pieces, sep) + [c]
    decreases |pieces|
  {
    var e := Extend(pieces, sep, c);
    if |pieces| == 1 {
      if c == sep { assert e[1..] == [""]; }
    } else {
      assert e[0] == pieces[0] && e[1..] == Extend(pieces[1..], sep, c);
      JoinExtends(pieces[1..], sep, c);
    }
  }

  // The pieces of a text joined again are the text.
  lemma {:induction false} JoinOfSplit(s: string, sep: char)
    ensures Join(Split(s, sep), sep) == s
  {
    if s != "" {
      var t, c := s[..|s| - 1], s[|s| - 1];
      JoinOfSplit(t, sep);
      JoinExtends(Split(t, sep), sep, c);
      assert s == t + [c];
    }
  }
}
