/**
  Taking the values of sensitive parameters out of a query string.
*/
module Redact {
  import opened Common
  import opened Texts

  // What is not looked into: query unescaping, and which names are sensitive.
  datatype Env = Env(unescape: string -> Option<string>, sensitive: string -> bool)

  // The placeholder, escaped for a query.
  const MASKED := "%3Credacted%3E"

  // Where a pair's first '=' stands; its length when it has none.
  function KeyEnd(pair: string): (n: nat)
    ensures n <= |pair| && '=' !in pair[..n] && (n < |pair| ==> pair[n] == '=')
  {
    if pair == "" || pair[0] == '=' then 0 else 1 + KeyEnd(pair[1..])
  }

  function Key(pair: string): string {
    pair[..KeyEnd(pair)]
  }

  predicate HasValue(pair: string) {
    KeyEnd(pair) < |pair|
  }

  function Name(env: Env, pair: string): string {
    match env.unescape(Key(pair))
    case Some(n) => n
    case None => Key(pair)
  }

  predicate Secret(env: Env, pair: string) {
    HasValue(pair) && env.sensitive(Name(env, pair))
  }

  function Redacted(env: Env, pair: string): string {
    if Secret(env, pair) then Key(pair) + "=" + MASKED else pair
  }

  // The pairs of a redacted text.
  function Pairs(env: Env, s: string): seq<string> {
    Map(Split(s, '&'), p => Redacted(env, p))
  }

  function Result(env: Env, s: string): string {
    Join(Pairs(env, s), '&')
  }

  method RedactPairs(env: Env, s: string) returns (out: string, changed: bool)
    ensures out == Result(env, s)
    ensures changed <==> exists i :: 0 <= i < |Split(s, '&')| && Secret(env, Split(s, '&')[i])
  {
    if s == "" {
      assert Pairs(env, s) == [""];
      return s, false;
    }
    var parts := Split(s, '&');
    changed := false;
    for i := 0 to |parts|
      invariant |parts| == |Split(s, '&')|
      invariant forall k :: 0 <= k < |parts| ==> parts[k] == if k < i then Redacted(env, Split(s, '&')[k])
        else Split(s, '&')[k]
      invariant changed <==> exists k :: 0 <= k < i && Secret(env, Split(s, '&')[k])
    {
      if Secret(env, parts[i]) {
        parts := parts[i := Key(parts[i]) + "=" + MASKED];
        changed := true;
      }
    }
    assert parts == Pairs(env, s);
    out := Join(parts, '&');
  }

  lemma {:induction false} KeyEndIs(pair: string, n: nat)
    requires n < |pair| && pair[n] == '=' && '=' !in pair[..n]
    ensures KeyEnd(pair) == n
  {
    if n > 0 {
      assert pair[1..][..n - 1] == pair[..n][1..];
      KeyEndIs(pair[1..], n - 1);
    }
  }

  predicate FirstEquals(pair: string, k: int) {
    0 <= k < |pair| && pair[k] == '=' && '=' !in pair[..k]
  }

  function Unescaped(env: Env, name: string): string {
    if env.unescape(name).Some? then env.unescape(name).value else name
  }

  // What stands before the pair's first '=' names a sensitive parameter.
  ghost predicate Sensitive(env: Env, pair: string) {
    exists k :: FirstEquals(pair, k) && env.sensitive(Unescaped(env, pair[..k]))
  }

  lemma SecretIffSensitive(env: Env, pair: string)
    ensures Secret(env, pair) <==> Sensitive(env, pair)
  {
    if k :| FirstEquals(pair, k) && env.sensitive(Unescaped(env, pair[..k])) { KeyEndIs(pair, k); }
    if Secret(env, pair) { assert FirstEquals(pair, KeyEnd(pair)); }
  }

  // A redacted pair keeps its name, stays as sensitive as it was, holds the
  // placeholder, and redacts to itself.
  lemma RedactedPair(env: Env, pair: string)
    requires '&' !in pair
    ensures var r := Redacted(env, pair);
      && Name(env, r) == Name(env, pair) && HasValue(r) == HasValue(pair) && '&' !in r
      && Redacted(env, r) == r && (Secret(env, pair) ==> r[KeyEnd(r) + 1..] == MASKED) &&
         (!Secret(env, pair) ==> r == pair)
  {
    if Secret(env, pair) {
      var r := Redacted(env, pair);
      assert r[..KeyEnd(pair)] == Key(pair) && r[KeyEnd(pair) + 1..] == MASKED;
      KeyEndIs(r, KeyEnd(pair));
      assert '&' !in MASKED;
    }
  }

  lemma SplitOfResult(env: Env, s: string)
    ensures Split(Result(env, s), '&') == Pairs(env, s)
  {
    var pairs := Pairs(env, s);
    assert |pairs| == |Split(s, '&')|;
    forall i | 0 <= i < |pairs| ensures '&' !in pairs[i] { RedactedPair(env, Split(s, '&')[i]); }
    SplitOfJoin(pairs, '&');
  }

  // Redaction keeps the pairs, their order and their names, touches no pair that
  // is not sensitive, and leaves no sensitive value behind.
  lemma PairsAreKept(env: Env, s: string)
    ensures var before, after := Split(s, '&'), Split(Result(env, s), '&');
      && |after| == |before|
      && forall i :: 0 <= i < |before| ==>
        && Name(env, after[i]) == Name(env, before[i])
        && (!Secret(env, before[i]) ==> after[i] == before[i])
        && (Secret(env, before[i]) ==> after[i] == Key(before[i]) + "=" + MASKED)
  {
    SplitOfResult(env, s);
    forall i | 0 <= i < |Split(s, '&')| ensures Name(env, Pairs(env, s)[i]) == Name(env, Split(s, '&')[i]) {
      RedactedPair(env, Split(s, '&')[i]);
    }
  }

  // In particular what replaces a sensitive value is the placeholder, behind the
  // same name, and no sensitive pair is left that holds another value.
  lemma SensitiveValuesAreGone(env: Env, s: string, i: nat)
    requires i < |Split(s, '&')|
    ensures |Split(Result(env, s), '&')| == |Split(s, '&')|
    ensures var before, after := Split(s, '&')[i], Split(Result(env, s), '&')[i];
      && (!Sensitive(env, before) ==> after == before)
      && (Sensitive(env, before) ==> exists k :: FirstEquals(before, k) && after == before[..k + 1] + MASKED)
  {
    PairsAreKept(env, s);
    var before := Split(s, '&')[i];
    SecretIffSensitive(env, before);
    if Sensitive(env, before) {
      var k := KeyEnd(before);
      assert FirstEquals(before, k) && before[..k + 1] == Key(before) + "=";
    }
  }

  // Redacting twice is redacting once.
  lemma RedactionStays(env: Env, s: string)
    ensures Result(env, Result(env, s)) == Result(env, s)
  {
    SplitOfResult(env, s);
    forall i | 0 <= i < |Split(s, '&')| ensures Redacted(env, Pairs(env, s)[i]) == Pairs(env, s)[i] {
      RedactedPair(env, Split(s, '&')[i]);
    }
    assert Pairs(env, Result(env, s)) == Pairs(env, s);
  }

  // A text with nothing sensitive comes back as it is, byte for byte.
  lemma NothingSensitiveNothingChanged(env: Env, s: string)
    requires forall i :: 0 <= i < |Split(s, '&')| ==> !Secret(env, Split(s, '&')[i])
    ensures Result(env, s) == s
  {
    assert Pairs(env, s) == Split(s, '&');
    JoinOfSplit(s, '&');
  }
}
