/**
  Admission: which command-line targets the scan will reach, decided before any
  request is sent over the same matcher the scan enforces.
*/
module Admission {
  import opened Common
  import opened Scope
  import OriginIndex
  import opened ScopeVerdict

  // How a scan is configured before any target is known.
  datatype Setup = Setup(cfg: Config, mode: string, staticExts: set<string>)

  datatype TargetVerdict = TargetVerdict(target: string, host: string, rule: Reason)

  // "://" comes after something and before any path, query or fragment.
  predicate HasScheme(target: string) {
    var i := Index(target, "://");
    i.Some? && i.value > 0 && forall k :: 0 <= k < i.value ==> target[k] !in "/?#"
  }

  // EnsureURLScheme with the default scheme http.
  function EnsureScheme(target: string): string {
    if target == "" || HasScheme(target) then target
    else "http://" + if "//" <= target then target[2..] else target
  }

  // admissionHostPath: the pair the executor's check evaluates, None for a
  // target that does not parse.
  function HostPath(env: Env, target: string): Option<Url> {
    var t := env.trim(target);
    if t == "" then None
    else match env.parseURL(EnsureScheme(t))
      case Some(u) => if u.hostname == "" then None else Some(u)
      case None => None
  }

  // The reason a matcher built for these targets refuses one of them.
  ghost function Refusal(env: Env, setup: Setup, targets: seq<string>, target: string): Reason {
    match HostPath(env, target)
    case None => Admitted
    case Some(u) =>
      var originOK := OriginIndex.OriginAnswer(env, setup.mode, targets, u.hostname);
      FirstRefusal(env, setup.cfg, setup.staticExts, false, originOK, u.hostname, u.requestURI)
  }

  ghost function VerdictOf(env: Env, setup: Setup, targets: seq<string>, target: string): TargetVerdict {
    TargetVerdict(target, if HostPath(env, target).Some? then HostPath(env, target).value.hostname else "",
                  Refusal(env, setup, targets, target))
  }

  // Which targets a matcher built for the list keeps, and which it refuses.
  ghost function Keeps(env: Env, setup: Setup, targets: seq<string>): string -> bool {
    t => Refusal(env, setup, targets, t).Admitted?
  }

  ghost function Drops(env: Env, setup: Setup, targets: seq<string>): string -> bool {
    t => !Refusal(env, setup, targets, t).Admitted?
  }

  ghost function Verdicts(env: Env, setup: Setup, targets: seq<string>): string -> TargetVerdict {
    t => VerdictOf(env, setup, targets, t)
  }

  // One more target of the list, sorted.
  lemma OneMoreTarget(env: Env, setup: Setup, targets: seq<string>, i: nat)
    requires i < |targets|
    ensures var t := targets[i];
      && Filter(targets[..i + 1], Keeps(env, setup, targets)) ==
         Filter(targets[..i], Keeps(env, setup, targets))
         + (if Refusal(env, setup, targets, t).Admitted? then [t] else [])
      && Map(Filter(targets[..i + 1], Drops(env, setup, targets)), Verdicts(env, setup, targets)) ==
         Map(Filter(targets[..i], Drops(env, setup, targets)), Verdicts(env, setup, targets))
         + if Refusal(env, setup, targets, t).Admitted? then [] else [VerdictOf(env, setup, targets, t)]
  {
    assert targets[..i + 1] == targets[..i] + [targets[i]];
    FilterSnoc(targets[..i], targets[i], Keeps(env, setup, targets));
    FilterSnoc(targets[..i], targets[i], Drops(env, setup, targets));
  }

  method AdmitTargets(env: Env, setup: Setup, targets: seq<string>)
    returns (admitted: seq<string>, rejected: seq<TargetVerdict>)
    ensures admitted == Filter(targets, Keeps(env, setup, targets))
    ensures rejected == Map(Filter(targets, Drops(env, setup, targets)), Verdicts(env, setup, targets))
  {
    admitted, rejected := [], [];
    if |targets| == 0 {
      return;
    }
    var origin := OriginIndex.CompileOrigin(env, setup.mode, targets);
    var matcher := Matcher(setup.cfg, setup.mode, origin, setup.staticExts, {}, map[]);
    for i := 0 to |targets|
      invariant admitted == Filter(targets[..i], Keeps(env, setup, targets))
      invariant rejected == Map(Filter(targets[..i], Drops(env, setup, targets)), Verdicts(env, setup, targets))
    {
      var target := targets[i];
      OneMoreTarget(env, setup, targets, i);
      var hp := HostPath(env, target);
      if hp.None? {
        admitted := admitted + [target];
        continue;
      }
      var rule := RejectReason(env, matcher, hp.value.hostname, hp.value.requestURI);
      assert rule == Refusal(env, setup, targets, target);
      if !rule.Admitted? {
        rejected := rejected + [TargetVerdict(target, hp.value.hostname, rule)];
        continue;
      }
      admitted := admitted + [target];
    }
    assert targets[..|targets|] == targets;
  }

  // ---------------------------------------------------------------- theorems

  // Admission loses no target and invents none: the admitted and the rejected
  // targets together are the list, with multiplicity.
  lemma {:induction false} AdmissionPartitions(targets: seq<string>, keep: string -> bool)
    ensures multiset(targets) == multiset(Filter(targets, keep)) + multiset(Filter(targets, t => !keep(t)))
  {
    if targets != [] {
      var rest, last := targets[..|targets| - 1], targets[|targets| - 1];
      AdmissionPartitions(rest, keep);
      assert targets == rest + [last];
      FilterSnoc(rest, last, keep);
      FilterSnoc(rest, last, t => !keep(t));
    }
  }

  // A target written with a scheme is never refused by origin mode over the
  // list it stands in, in any mode, whatever the URL parser and the public
  // suffix list answer.
  lemma SchemedTargetKeepsItsOrigin(env: Env, setup: Setup, targets: seq<string>, target: string)
    requires target in targets && HasScheme(env.trim(target))
    ensures !Refusal(env, setup, targets, target).CLIOriginMode?
  {
    var t, hp := env.trim(target), HostPath(env, target);
    if hp.Some? {
      var i :| 0 <= i < |targets| && targets[i] == target;
      assert EnsureScheme(t) == t && Contains(t, "://");
      assert OriginIndex.TargetHost(env, target) == hp.value.hostname;
      var h := env.lower(hp.value.hostname);
      OriginIndex.AdmitsItself(env, setup.mode, OriginIndex.OriginOf(env, h));
      assert OriginIndex.Admits(env, setup.mode,
        OriginIndex.OriginOf(env, env.lower(OriginIndex.TargetHost(env, targets[i]))), h);
    }
  }

  // Some target of the list is indexed under a host that is not an IP address
  // and has this registrable domain.
  ghost predicate NamesDomain(env: Env, targets: seq<string>, domain: string) {
    exists i :: 0 <= i < |targets| && OriginIndex.TargetHost(env, targets[i]) != ""
                && OriginIndex.OriginOf(env, env.lower(OriginIndex.TargetHost(env, targets[i]))).etldPlus1 == domain
  }

  predicate KeywordIn(o: OriginIndex.Origin, name: string) {
    o.keyword != "" && Contains(name, o.keyword)
  }

  // Some target of the list is indexed under a host that is not an IP address
  // and whose keyword stands in this label.
  ghost predicate NamesKeywordOf(env: Env, targets: seq<string>, name: string) {
    exists i :: 0 <= i < |targets| && OriginIndex.TargetHost(env, targets[i]) != ""
                && KeywordIn(OriginIndex.OriginOf(env, env.lower(OriginIndex.TargetHost(env, targets[i]))), name)
  }

  ghost predicate NothingIndexed(env: Env, targets: seq<string>) {
    forall i :: 0 <= i < |targets| ==> OriginIndex.TargetHost(env, targets[i]) == ""
  }

  // What a list of targets lets through in each mode, for a lower-cased host.
  ghost predicate ListAdmits(env: Env, mode: string, targets: seq<string>, h: string) {
    var domain := env.registrable(h);
    || NothingIndexed(env, targets) || OriginIndex.Names(env, targets, h)
    || (mode == "balanced" && domain.Some? && domain.value != "" && NamesDomain(env, targets, domain.value))
    || (mode == "relaxed" && domain.Some? && NamesKeywordOf(env, targets, LeadingLabel(domain.value)))
    || !OriginIndex.Known(mode)
  }

  // One target of a list admits a host by itself if and only if it is indexed
  // under it, or shares what the mode compares.
  lemma OneAdmitsIff(env: Env, mode: string, o: OriginIndex.Origin, h: string)
    requires OriginIndex.Known(mode) && o == OriginIndex.OriginOf(env, o.exactHost)
    ensures OriginIndex.Admits(env, mode, o, h) <==>
              var domain := env.registrable(h);
              || h == o.exactHost
              || (mode == "balanced" && domain.Some? && domain.value != "" && o.etldPlus1 == domain.value)
              || (mode == "relaxed" && domain.Some? && KeywordIn(o, LeadingLabel(domain.value)))
  {
    OriginIndex.AdmitsItself(env, mode, o);
  }

  // Origin mode, for every list, every host and every mode: it lets a host
  // through exactly when the mode is not a known one, nothing is indexed, or the
  // host is, up to case, a name the list is indexed under, or, in balanced mode,
  // of an indexed domain, or, in relaxed mode, of a domain with an indexed
  // keyword in its label.
  lemma OriginModeKeeps(env: Env, mode: string, targets: seq<string>, host: string)
    ensures OriginIndex.OriginAnswer(env, mode, targets, host) <==> ListAdmits(env, mode, targets, env.lower(host))
  {
    if OriginIndex.Known(mode) {
      var h := env.lower(host);
      forall i | 0 <= i < |targets| {
        OneAdmitsIff(env, mode, OriginIndex.OriginOf(env, env.lower(OriginIndex.TargetHost(env, targets[i]))), h);
      }
    }
  }

  // So this is when a target's own list refuses it by origin mode.
  lemma OwnListRefusesIff(env: Env, setup: Setup, targets: seq<string>, target: string)
    requires HostPath(env, target).Some?
    ensures var host := HostPath(env, target).value.hostname;
      Refusal(env, setup, targets, target) == CLIOriginMode <==>
        EvalGlob(env, host, setup.cfg.host).Pass? && !ListAdmits(env, setup.mode, targets, env.lower(host))
  {
    OriginModeKeeps(env, setup.mode, targets, HostPath(env, target).value.hostname);
  }

  lemma SchemeHasColon(target: string)
    ensures Contains(target, "://") ==> ':' in target
  {
    if Contains(target, "://") {
      var i := Index(target, "://").value;
      assert target[i] == target[i..i + 3][0];
    }
  }

  lemma LabelBeforeDot(domain: string)
    requires |domain| >= 2 && domain[0] == 'a' && domain[1] == '.'
    ensures LeadingLabel(domain) == "a"
  {
    assert !At(domain, ".", 0) && At(domain, ".", 1);
  }

  // A list of one target that is indexed as it is written, asked about another
  // host, where the domain of each is itself.
  lemma OneTargetList(env: Env, mode: string, target: string, host: string)
    requires OriginIndex.Known(mode) && target != "" && host != "" && target != host
    requires OriginIndex.TargetHost(env, target) == target && env.lower(target) == target && !env.isIP(target)
    requires env.registrable(target) == Some(target) && env.registrable(host) == Some(host)
    requires LeadingLabel(target) == LeadingLabel(host) != ""
    ensures ListAdmits(env, mode, [target], host) <==> mode == "relaxed"
  {
    var name := LeadingLabel(host);
    assert name <= name && Index(name, name) == Some(0);
    assert [target][0] == target;
  }

  // A scheme is needed: "a.b/p" is indexed under "a.b/p" but checked as "a.b".
  // Where the domain of each is itself, its own list refuses it in strict and
  // in balanced mode, and keeps it in relaxed mode, the keyword being "a".
  lemma SchemelessPathIsRefused(mode: string) returns (env: Env, setup: Setup)
    requires OriginIndex.Known(mode)
    ensures setup.mode == mode
    ensures Refusal(env, setup, ["a.b/p"], "a.b/p") == if mode == "relaxed" then Admitted else CLIOriginMode
  {
    env := Env(s => s, s => s, (v, p) => false, (c, p) => false, s => "", s => Some(s), s => false,
               s => Some(Url("a.b", "/p")), s => None);
    var any := Rule([], []);
    setup := Setup(Config(any, any, any, any, any, any, any), mode, {});
    var target, host := "a.b/p", "a.b";
    SchemeHasColon(target);
    LabelBeforeDot(target);
    LabelBeforeDot(host);
    assert |target| != |host|;
    OneTargetList(env, mode, target, host);
    OwnListRefusesIff(env, setup, [target], target);
  }

  // ------------------------------------------------- the pair that is checked

  // A scheme is a "://" with something before it, none of which begins a path, a
  // query or a fragment.
  lemma HasSchemeIff(target: string)
    ensures HasScheme(target) <==>
      exists k: nat :: k > 0 && At(target, "://", k) && forall j :: 0 <= j < k ==> target[j] !in "/?#"
  {
    forall k: nat | k > 0 && At(target, "://", k) && forall j :: 0 <= j < k ==> target[j] !in "/?#"
      ensures HasScheme(target)
    {
      var i := Index(target, "://").value;
      assert i <= k;
      if i < k {
        assert target[i + 1] == target[i..i + 3][1] && target[k] == target[k..k + 3][0];
      }
    }
  }

  lemma WithTwoSlashes(target: string)
    requires "//" <= target
    ensures "http://" + target[2..] == "http:" + target
  {
    assert target == "//" + target[2..];
  }

  lemma GivenScheme(rest: string)
    ensures HasScheme("http://" + rest)
  {
    var t := "http://" + rest;
    assert At(t, "://", 4);
    assert forall j :: 0 <= j < 4 ==> t[j] == "http"[j];
    HasSchemeIff(t);
  }

  // A target without a scheme is given one, a protocol-relative one only what it
  // lacks, and a second time nothing is added.
  lemma EveryTargetHasAScheme(target: string)
    ensures target == "" ==> EnsureScheme(target) == ""
    ensures target != "" && HasScheme(target) ==> EnsureScheme(target) == target
    ensures target != "" && !HasScheme(target) ==>
      EnsureScheme(target) == if "//" <= target then "http:" + target else "http://" + target
    ensures target != "" ==> HasScheme(EnsureScheme(target))
    ensures EnsureScheme(EnsureScheme(target)) == EnsureScheme(target)
  {
    if target != "" && !HasScheme(target) {
      if "//" <= target { WithTwoSlashes(target); }
      GivenScheme(if "//" <= target then target[2..] else target);
    }
  }

  lemma HostPathIff(env: Env, target: string, u: Url)
    ensures HostPath(env, target) == Some(u) <==>
      env.trim(target) != "" && env.parseURL(EnsureScheme(env.trim(target))) == Some(u) && u.hostname != ""
  {
  }

  // A target is admitted exactly when it names no host that can be checked, or its
  // host and its path pass every rule and origin mode, each judged on its own.
  lemma AdmittedIff(env: Env, setup: Setup, targets: seq<string>, target: string)
    ensures Refusal(env, setup, targets, target).Admitted? <==>
      match HostPath(env, target)
      case None => true
      case Some(u) =>
        var extension := env.lower(env.extension(u.requestURI));
        && GlobKeeps(env, u.hostname, setup.cfg.host)
        && OriginIndex.OriginAnswer(env, setup.mode, targets, u.hostname)
        && GlobKeeps(env, u.requestURI, setup.cfg.path) && !(extension != "" && extension in setup.staticExts)
  {
    if HostPath(env, target).Some? {
      var u := HostPath(env, target).value;
      GlobIsItsSides(env, u.hostname, setup.cfg.host);
      GlobIsItsSides(env, u.requestURI, setup.cfg.path);
    }
  }
}
