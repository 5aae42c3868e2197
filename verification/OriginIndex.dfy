/**
  Origin mode: which hosts the command line's own targets admit. The targets
  are compiled once into per-mode lookups; the model proves the lookups give
  the answer of the loop over the targets that they replaced.
*/
module OriginIndex {
  import opened Common
  import opened Scope

  // One parsed target; the derived fields are empty for an IP address and for
  // a host with no registrable domain.
  datatype Origin = Origin(exactHost: string, etldPlus1: string, keyword: string, isIP: bool)

  datatype Lookups = Lookups(exactHosts: set<string>, etldPlus1: set<string>, keywords: seq<string>)

  // extractHostFromTarget.
  function TargetHost(env: Env, target: string): string {
    var t := env.trim(target);
    if t == "" then ""
    else if Contains(t, "://") && env.parseURL(t).Some? && env.parseURL(t).value.hostname != "" then
      env.parseURL(t).value.hostname
    else if env.splitHost(t).Some? then env.splitHost(t).value
    else t
  }

  function OriginOf(env: Env, host: string): Origin {
    if env.isIP(host) then Origin(host, "", "", true)
    else match env.registrable(host)
      case Some(domain) => Origin(host, domain, LeadingLabel(domain), false)
      case None => Origin(host, "", "", false)
  }

  // The distinct hosts the targets name, lower-cased, whatever their order.
  ghost predicate Names(env: Env, targets: seq<string>, host: string) {
    exists i :: 0 <= i < |targets| && TargetHost(env, targets[i]) != "" &&
      host == env.lower(TargetHost(env, targets[i]))
  }

  lemma NamesOneMore(env: Env, targets: seq<string>, n: nat)
    requires n < |targets|
    ensures forall host :: Names(env, targets[..n + 1], host) <==>
              Names(env, targets[..n], host)
              || (TargetHost(env, targets[n]) != "" && host == env.lower(TargetHost(env, targets[n])))
  {
    var before, after := targets[..n], targets[..n + 1];
    assert after == before + [targets[n]];
    forall host ensures Names(env, after, host) <==>
      Names(env, before, host) || (TargetHost(env, targets[n]) != "" && host == env.lower(TargetHost(env, targets[n])))
    {
      if i :| 0 <= i < |after| && TargetHost(env, after[i]) != "" && host == env.lower(TargetHost(env, after[i])) {
        assert i < n ==> before[i] == after[i];
      }
      if i :| 0 <= i < |before| && TargetHost(env, before[i]) != "" && host == env.lower(TargetHost(env, before[i])) {
        assert after[i] == before[i];
      }
      assert after[n] == targets[n];
    }
  }

  method ParseOriginTargets(env: Env, targets: seq<string>) returns (result: seq<Origin>)
    ensures forall o :: o in result <==> Names(env, targets, o.exactHost) && o == OriginOf(env, o.exactHost)
    ensures forall i, j :: 0 <= i < j < |result| ==> result[i].exactHost != result[j].exactHost
  {
    var seen: set<string> := {};
    result := [];
    for n := 0 to |targets|
      invariant forall host :: host in seen <==> Names(env, targets[..n], host)
      invariant forall host :: host in seen <==> exists i :: 0 <= i < |result| && result[i].exactHost == host
      invariant forall i :: 0 <= i < |result| ==> result[i] == OriginOf(env, result[i].exactHost)
      invariant forall i, j :: 0 <= i < j < |result| ==> result[i].exactHost != result[j].exactHost
    {
      NamesOneMore(env, targets, n);
      var host := TargetHost(env, targets[n]);
      if host == "" {
        continue;
      }
      host := env.lower(host);
      if host in seen {
        continue;
      }
      seen := seen + {host};
      var origin := Origin(host, "", "", false);
      if env.isIP(host) {
        origin := origin.(isIP := true);
      } else if env.registrable(host).Some? {
        var domain := env.registrable(host).value;
        origin := origin.(etldPlus1 := domain, keyword := LeadingLabel(domain));
      }
      ghost var before := result;
      result := result + [origin];
      assert forall i :: 0 <= i < |before| ==> result[i] == before[i];
      assert result[|before|] == origin;
    }
    assert targets[..|targets|] == targets;
  }

  // The domains and the keywords a list of targets contributes.
  ghost predicate HasDomain(origins: seq<Origin>, domain: string) {
    domain != "" && exists i :: 0 <= i < |origins| && !origins[i].isIP && origins[i].etldPlus1 == domain
  }

  ghost predicate HasKeyword(origins: seq<Origin>, keyword: string) {
    keyword != "" && exists i :: 0 <= i < |origins| && !origins[i].isIP && origins[i].keyword == keyword
  }

  ghost predicate HasHost(origins: seq<Origin>, host: string) {
    exists i :: 0 <= i < |origins| && origins[i].exactHost == host
  }

  // The lookups hold what their mode reads, and nothing else.
  ghost predicate Compiled(origins: seq<Origin>, mode: string, idx: Lookups) {
    && (forall h :: h in idx.exactHosts <==> HasHost(origins, h))
    && (forall d :: d in idx.etldPlus1 <==> mode == "balanced" && HasDomain(origins, d))
    && (forall k :: k in idx.keywords <==> mode == "relaxed" && HasKeyword(origins, k))
  }

  lemma OneMore(origins: seq<Origin>, n: nat)
    requires n < |origins|
    ensures forall h :: HasHost(origins[..n + 1], h) <==> HasHost(origins[..n], h) || h == origins[n].exactHost
    ensures forall d :: HasDomain(origins[..n + 1], d) <==>
              HasDomain(origins[..n], d) || (d != "" && !origins[n].isIP && d == origins[n].etldPlus1)
    ensures forall k :: HasKeyword(origins[..n + 1], k) <==>
              HasKeyword(origins[..n], k) || (k != "" && !origins[n].isIP && k == origins[n].keyword)
  {
    var before, after := origins[..n], origins[..n + 1];
    assert after == before + [origins[n]];
    forall h | HasHost(before, h) ensures HasHost(after, h) {
      var i :| 0 <= i < |before| && before[i].exactHost == h;
      assert after[i] == before[i];
    }
    forall d | HasDomain(before, d) ensures HasDomain(after, d) {
      var i :| 0 <= i < |before| && !before[i].isIP && before[i].etldPlus1 == d;
      assert after[i] == before[i];
    }
    forall k | HasKeyword(before, k) ensures HasKeyword(after, k) {
      var i :| 0 <= i < |before| && !before[i].isIP && before[i].keyword == k;
      assert after[i] == before[i];
    }
    assert after[n] == origins[n];
  }

  method BuildOriginIndex(origins: seq<Origin>, mode: string) returns (idx: Lookups)
    ensures Compiled(origins, mode, idx)
    ensures forall i, j :: 0 <= i < j < |idx.keywords| ==> idx.keywords[i] != idx.keywords[j]
  {
    idx := Lookups({}, {}, []);
    var seenKeyword: set<string> := {};
    for n := 0 to |origins|
      invariant Compiled(origins[..n], mode, idx)
      invariant forall k :: k in seenKeyword <==> k in idx.keywords
      invariant forall i, j :: 0 <= i < j < |idx.keywords| ==> idx.keywords[i] != idx.keywords[j]
    {
      OneMore(origins, n);
      var o := origins[n];
      idx := idx.(exactHosts := idx.exactHosts + {o.exactHost});
      if o.isIP {
        continue;
      }
      if mode == "balanced" && o.etldPlus1 != "" {
        idx := idx.(etldPlus1 := idx.etldPlus1 + {o.etldPlus1});
      }
      if mode != "relaxed" || o.keyword == "" {
        continue;
      }
      if o.keyword !in seenKeyword {
        seenKeyword := seenKeyword + {o.keyword};
        idx := idx.(keywords := idx.keywords + [o.keyword]);
      }
    }
    assert origins[..|origins|] == origins;
  }

  // hostMatchesOrigin: at most one registrable-domain lookup per host.
  predicate HostMatchesOrigin(env: Env, mode: string, idx: Lookups, host: string) {
    if mode == "all" || idx.exactHosts == {} then true
    else
      var h := env.lower(host);
      if h in idx.exactHosts then true
      else if mode == "strict" then false
      else if mode != "balanced" && mode != "relaxed" then true
      else
        match env.registrable(h)
        case None => false
        case Some(domain) =>
          if mode == "balanced" then domain in idx.etldPlus1
          else exists i :: 0 <= i < |idx.keywords| && Contains(LeadingLabel(domain), idx.keywords[i])
  }

  // What one target answered in the loop the lookups replaced, as the
  // repository's own reference implementation of it spells it out.
  predicate Admits(env: Env, mode: string, o: Origin, h: string) {
    if o.isIP || mode == "strict" then h == o.exactHost
    else if mode == "balanced" then
      if o.etldPlus1 == "" then h == o.exactHost else env.registrable(h) == Some(o.etldPlus1)
    else if mode == "relaxed" then
      if o.keyword == "" then h == o.exactHost
      else env.registrable(h).Some? && Contains(LeadingLabel(env.registrable(h).value), o.keyword)
    else true
  }

  ghost predicate Reference(env: Env, mode: string, origins: seq<Origin>, host: string) {
    mode == "all" || origins == [] || exists i :: 0 <= i < |origins| && Admits(env, mode, origins[i], env.lower(host))
  }

  predicate Known(mode: string) {
    mode == "strict" || mode == "balanced" || mode == "relaxed"
  }

  ghost predicate Parsed(env: Env, origins: seq<Origin>) {
    forall i :: 0 <= i < |origins| ==> origins[i] == OriginOf(env, origins[i].exactHost)
  }

  // A target admits its own host in every mode.
  lemma AdmitsItself(env: Env, mode: string, o: Origin)
    requires o == OriginOf(env, o.exactHost)
    ensures Admits(env, mode, o, o.exactHost)
  {
    var lead := LeadingLabel(o.etldPlus1);
    assert lead <= lead && Index(lead, lead) == Some(0);
  }

  // For a host no target names, the softened modes ask the same question of
  // the sets as of the targets.
  lemma SoftMatchAgrees(env: Env, mode: string, origins: seq<Origin>, idx: Lookups, h: string)
    requires Compiled(origins, mode, idx) && Known(mode) && Parsed(env, origins)
    requires forall i :: 0 <= i < |origins| ==> origins[i].exactHost != h
    ensures (exists i :: 0 <= i < |origins| && Admits(env, mode, origins[i], h)) <==>
            var domain := env.registrable(h);
            && domain.Some?
            && if mode == "balanced" then domain.value in idx.etldPlus1 && domain.value != ""
               else
                 && mode == "relaxed"
                 && exists k :: 0 <= k < |idx.keywords| && Contains(LeadingLabel(domain.value), idx.keywords[k])
  {
    if i :| 0 <= i < |origins| && Admits(env, mode, origins[i], h) {
      if mode == "balanced" {
        assert HasDomain(origins, origins[i].etldPlus1);
      } else if mode == "relaxed" {
        assert HasKeyword(origins, origins[i].keyword);
        assert origins[i].keyword in idx.keywords;
      }
    }
    if env.registrable(h).Some? {
      var domain := env.registrable(h).value;
      if mode == "balanced" && domain in idx.etldPlus1 {
        assert HasDomain(origins, domain);
        var i :| 0 <= i < |origins| && !origins[i].isIP && origins[i].etldPlus1 == domain;
        assert Admits(env, mode, origins[i], h);
      } else if mode == "relaxed" {
        forall k | 0 <= k < |idx.keywords| && Contains(LeadingLabel(domain), idx.keywords[k])
          ensures exists i :: 0 <= i < |origins| && Admits(env, mode, origins[i], h)
        {
          assert idx.keywords[k] in idx.keywords && HasKeyword(origins, idx.keywords[k]);
          var i :| 0 <= i < |origins| && !origins[i].isIP && origins[i].keyword == idx.keywords[k];
          assert Admits(env, mode, origins[i], h);
        }
      }
    }
  }

  lemma KnownModeAgrees(env: Env, mode: string, origins: seq<Origin>, idx: Lookups, host: string)
    requires Parsed(env, origins) && Compiled(origins, mode, idx) && Known(mode)
    ensures HostMatchesOrigin(env, mode, idx, host) <==> Reference(env, mode, origins, host)
  {
    var h := env.lower(host);
    if origins == [] {
      assert forall x :: x !in idx.exactHosts;
      assert idx.exactHosts == {};
    } else {
      assert origins[0].exactHost in idx.exactHosts;
      if h in idx.exactHosts {
        var i :| 0 <= i < |origins| && origins[i].exactHost == h;
        AdmitsItself(env, mode, origins[i]);
      } else {
        assert forall i :: 0 <= i < |origins| ==> origins[i].exactHost != h;
        SoftMatchAgrees(env, mode, origins, idx, h);
      }
    }
  }

  // The lookups answer what the per-target loop answered, for every list of
  // targets and every host, exactly when the mode is a known one (or "all"),
  // or there is no target, or some target is not an IP address, or the host is
  // itself a target. In the one case left, an unrecognised mode over IP
  // targets only, the loop compared addresses and the lookups admit everything.
  lemma IndexAgreesWithTheLoop(env: Env, mode: string, origins: seq<Origin>, idx: Lookups, host: string)
    requires Parsed(env, origins) && Compiled(origins, mode, idx)
    ensures (HostMatchesOrigin(env, mode, idx, host) <==> Reference(env, mode, origins, host)) <==>
            || Known(mode) || mode == "all" || origins == []
            || (exists i :: 0 <= i < |origins| && !origins[i].isIP)
            || HasHost(origins, env.lower(host))
  {
    var h := env.lower(host);
    if Known(mode) {
      KnownModeAgrees(env, mode, origins, idx, host);
    } else if mode != "all" && origins != [] {
      assert origins[0].exactHost in idx.exactHosts;
      assert HostMatchesOrigin(env, mode, idx, host);
      if i :| 0 <= i < |origins| && (!origins[i].isIP || origins[i].exactHost == h) {
        assert Admits(env, mode, origins[i], h);
      }
    }
  }

  // The modes nest, for hosts as well as for targets: what strict admits
  // balanced admits, and what balanced admits relaxed admits exactly when the
  // host is a target or the leading label of its domain is not empty.
  lemma ModesNest(env: Env, origins: seq<Origin>, s: Lookups, b: Lookups, r: Lookups, host: string)
    requires Parsed(env, origins)
    requires Compiled(origins, "strict", s) && Compiled(origins, "balanced", b) && Compiled(origins, "relaxed", r)
    ensures HostMatchesOrigin(env, "strict", s, host) ==> HostMatchesOrigin(env, "balanced", b, host)
    ensures HostMatchesOrigin(env, "balanced", b, host) && origins != [] ==>
              var domain := env.registrable(env.lower(host));
              (HostMatchesOrigin(env, "relaxed", r, host) <==>
                 HasHost(origins, env.lower(host)) || (domain.Some? && LeadingLabel(domain.value) != ""))
  {
    var h := env.lower(host);
    assert s.exactHosts == b.exactHosts == r.exactHosts;
    if origins != [] {
      assert origins[0].exactHost in r.exactHosts;
      if h !in b.exactHosts && HostMatchesOrigin(env, "balanced", b, host) {
        var domain := env.registrable(h).value;
        assert HasDomain(origins, domain);
        var i :| 0 <= i < |origins| && !origins[i].isIP && origins[i].etldPlus1 == domain;
        var lead := LeadingLabel(domain);
        assert origins[i].keyword == lead;
        if lead != "" {
          assert HasKeyword(origins, lead);
          var k :| 0 <= k < |r.keywords| && r.keywords[k] == lead;
          assert lead <= lead && Index(lead, lead) == Some(0);
        } else {
          forall k | 0 <= k < |r.keywords| ensures !Contains(lead, r.keywords[k]) {
            assert r.keywords[k] in r.keywords && r.keywords[k] != "";
          }
        }
      }
    }
  }

  // The loop over the targets as written, without parsing them first or
  // dropping duplicates.
  ghost predicate LoopAdmits(env: Env, mode: string, targets: seq<string>, host: string) {
    || mode == "all"
    || (forall i :: 0 <= i < |targets| ==> TargetHost(env, targets[i]) == "")
    || exists i :: 0 <= i < |targets| && TargetHost(env, targets[i]) != ""
                   && Admits(env, mode, OriginOf(env, env.lower(TargetHost(env, targets[i]))), env.lower(host))
  }

  lemma ParsingLosesNothing(env: Env, mode: string, targets: seq<string>, origins: seq<Origin>, host: string)
    requires forall o :: o in origins <==> Names(env, targets, o.exactHost) && o == OriginOf(env, o.exactHost)
    ensures Reference(env, mode, origins, host) <==> LoopAdmits(env, mode, targets, host)
  {
    forall i | 0 <= i < |targets| && TargetHost(env, targets[i]) != ""
      ensures OriginOf(env, env.lower(TargetHost(env, targets[i]))) in origins
    {
      assert Names(env, targets, env.lower(TargetHost(env, targets[i])));
    }
    forall k | 0 <= k < |origins|
      ensures exists i :: 0 <= i < |targets| && TargetHost(env, targets[i]) != ""
                          && origins[k] == OriginOf(env, env.lower(TargetHost(env, targets[i])))
    {
      assert origins[k] in origins;
    }
    if i :| 0 <= i < |targets| && TargetHost(env, targets[i]) != ""
            && Admits(env, mode, OriginOf(env, env.lower(TargetHost(env, targets[i]))), env.lower(host)) {
      var k :| 0 <= k < |origins| && origins[k] == OriginOf(env, env.lower(TargetHost(env, targets[i])));
      assert Admits(env, mode, origins[k], env.lower(host));
    }
    if k :| 0 <= k < |origins| && Admits(env, mode, origins[k], env.lower(host)) {
      var i :| 0 <= i < |targets| && TargetHost(env, targets[i]) != ""
               && origins[k] == OriginOf(env, env.lower(TargetHost(env, targets[i])));
      assert Admits(env, mode, OriginOf(env, env.lower(TargetHost(env, targets[i]))), env.lower(host));
    }
    assert origins != [] ==> origins[0] in origins;
  }

  // The answer of origin mode over a list of raw targets.
  ghost predicate OriginAnswer(env: Env, mode: string, targets: seq<string>, host: string) {
    if Known(mode) then LoopAdmits(env, mode, targets, host) else true
  }

  // NewScopeMatcher's origin half: for every list of targets and every host,
  // the compiled lookups answer what the loop over the raw targets answers,
  // and an unrecognised mode admits everything.
  method CompileOrigin(env: Env, mode: string, targets: seq<string>) returns (idx: Lookups)
    ensures forall host :: HostMatchesOrigin(env, mode, idx, host) <==> OriginAnswer(env, mode, targets, host)
    ensures mode != "all" ==> forall h :: h in idx.exactHosts <==> Names(env, targets, h)
  {
    idx := Lookups({}, {}, []);
    if mode != "all" && |targets| > 0 {
      var origins := ParseOriginTargets(env, targets);
      idx := BuildOriginIndex(origins, mode);
      assert Parsed(env, origins) by {
        assert forall i :: 0 <= i < |origins| ==> origins[i] in origins;
      }
      forall host | Known(mode)
        ensures HostMatchesOrigin(env, mode, idx, host) <==> LoopAdmits(env, mode, targets, host)
      {
        KnownModeAgrees(env, mode, origins, idx, host);
        ParsingLosesNothing(env, mode, targets, origins, host);
      }
      forall h ensures h in idx.exactHosts <==> Names(env, targets, h) {
        assert HasHost(origins, h) <==> OriginOf(env, h) in origins;
      }
    }
  }

  // ------------------------------------------------- what one target names

  // The host of a target: that of a URL where the target is one with a host, else
  // what stands before a port, else the target itself, blanks around it aside.
  lemma TargetHostIs(env: Env, target: string)
    ensures var t, host := env.trim(target), TargetHost(env, target);
      var url := if exists k: nat :: At(t, "://", k) then env.parseURL(t) else None;
      if t == "" then host == ""
      else if url.Some? && url.value.hostname != "" then host == url.value.hostname
      else env.splitHost(t) == Some(host) || (env.splitHost(t).None? && host == t)
  {
    var t := env.trim(target);
    if Contains(t, "://") { assert At(t, "://", Index(t, "://").value); }
  }

  // The label of a domain is what precedes its first dot.
  lemma LabelIs(domain: string)
    ensures var lead := LeadingLabel(domain);
      && '.' !in lead && (lead == domain || lead + "." <= domain) && ('.' !in domain ==> lead == domain)
  {
    var i := Index(domain, ".");
    forall k | 0 <= k < |domain| && domain[k] == '.' ensures At(domain, ".", k) {
      assert domain[k..k + 1] == ".";
    }
    if i.Some? {
      assert domain[i.value] == domain[i.value..i.value + 1][0] == '.';
      assert domain[..i.value] + "." == domain[..i.value + 1];
      forall k | 0 <= k < i.value ensures domain[..i.value][k] != '.' { assert !At(domain, ".", k); }
    }
  }

  // An IP address has nothing derived; any other host has its registrable domain
  // and that one's label, when it has one.
  lemma OriginIs(env: Env, host: string)
    ensures var o := OriginOf(env, host);
      && o.exactHost == host && (o.isIP <==> env.isIP(host))
      && (env.isIP(host) || env.registrable(host).None? ==> o.etldPlus1 == "" && o.keyword == "")
      && (!env.isIP(host) && env.registrable(host).Some? ==>
            o.etldPlus1 == env.registrable(host).value && o.keyword == LeadingLabel(o.etldPlus1))
  {
  }
}
