/**
  What the scope matcher takes from libraries (case folding, glob matching, the
  public suffix list, URL parsing) as function-valued parameters, and the few
  string operations the models depend on, written out.
*/
module Scope {
  import opened Common

  // A parsed URL: its hostname without port, and its request target.
  datatype Url = Url(hostname: string, requestURI: string)

  datatype Env = Env(
    lower: string -> string,
    trim: string -> string,
    globMatch: (string, string) -> bool,     // value, pattern
    statusMatches: (int, string) -> bool,    // code, pattern
    extension: string -> string,
    registrable: string -> Option<string>,   // eTLD+1, None when there is none
    isIP: string -> bool,
    parseURL: string -> Option<Url>,
    splitHost: string -> Option<string>)     // the host of "host:port"

  // sub stands in s at position k.
  predicate At(s: string, sub: string, k: nat) {
    k + |sub| <= |s| && s[k..k + |sub|] == sub
  }

  // strings.Index: the first position of sub in s.
  function Index(s: string, sub: string): (i: Option<nat>)
    ensures i.Some? ==> At(s, sub, i.value) && forall k: nat :: k < i.value ==> !At(s, sub, k)
    ensures i.None? ==> forall k: nat :: !At(s, sub, k)
  {
    if sub <= s then Some(0)
    else if s == "" then None
    else
      var rest := Index(s[1..], sub);
      assert forall k: nat :: k >= 1 ==> (At(s, sub, k) <==> At(s[1..], sub, k - 1));
      if rest.None? then None else Some(rest.value + 1)
  }

  predicate Contains(s: string, sub: string) { Index(s, sub).Some? }

  // The label of a registrable domain: what precedes its first dot.
  function LeadingLabel(domain: string): string {
    var i := Index(domain, ".");
    if i.Some? then domain[..i.value] else domain
  }
}
