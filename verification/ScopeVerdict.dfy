/**
  The scope verdict of a request, its explanation, and the pre-send exclusion
  check, over the same configuration.
*/
module ScopeVerdict {
  import opened Scope
  import OriginIndex

  datatype Rule = Rule(includes: seq<string>, excludes: seq<string>)

  datatype Config = Config(host: Rule, path: Rule, statusCode: Rule,
                           requestContentType: Rule, responseContentType: Rule,
                           requestString: Rule, responseString: Rule)

  datatype Matcher = Matcher(cfg: Config, mode: string, origin: OriginIndex.Lookups,
                             staticExts: set<string>, dynamic: set<string>, cache: map<string, bool>)

  // Why a target is refused; Admitted stands for the empty reason.
  datatype Reason = Admitted | HostExclude | HostInclude | CLIOriginMode | PathExclude | PathInclude | StaticFile

  datatype Input = Input(host: string, path: string, statusCode: int,
                         requestContentType: string, responseContentType: string,
                         requestRaw: string, responseBody: string)

  // ------------------------------------------------------------------- rules

  predicate IsDefaultPassAll(rule: Rule) {
    rule.excludes == [] && (rule.includes == [] || rule.includes == ["*"])
  }

  predicate GlobMatch(env: Env, value: string, pattern: string) {
    pattern == "*" || env.globMatch(value, pattern)
  }

  predicate MatchesAny(env: Env, value: string, patterns: seq<string>) {
    exists i :: 0 <= i < |patterns| && GlobMatch(env, env.lower(value), env.lower(patterns[i]))
  }

  datatype GlobVerdict = Pass | Excluded | NotIncluded

  function EvalGlob(env: Env, value: string, rule: Rule): GlobVerdict {
    if IsDefaultPassAll(rule) then Pass
    else if MatchesAny(env, value, rule.excludes) then Excluded
    else if rule.includes == [] || rule.includes == ["*"] then Pass
    else if MatchesAny(env, value, rule.includes) then Pass
    else NotIncluded
  }

  predicate MatchGlob(env: Env, value: string, rule: Rule) {
    EvalGlob(env, value, rule).Pass?
  }

  predicate MatchStatusCode(env: Env, code: int, rule: Rule) {
    if IsDefaultPassAll(rule) then true
    else if exists i :: 0 <= i < |rule.excludes| && env.statusMatches(code, rule.excludes[i]) then false
    else if rule.includes == [] || rule.includes == ["*"] then true
    else exists i :: 0 <= i < |rule.includes| && env.statusMatches(code, rule.includes[i])
  }

  predicate HasSubstring(env: Env, value: string, patterns: seq<string>) {
    exists i :: 0 <= i < |patterns| && Contains(env.lower(value), env.lower(patterns[i]))
  }

  predicate MatchSubstring(env: Env, value: string, rule: Rule) {
    if IsDefaultPassAll(rule) then true
    else if HasSubstring(env, value, rule.excludes) then false
    else if rule.includes == [] then true
    else HasSubstring(env, value, rule.includes)
  }

  // ---------------------------------------------------------------- verdicts

  predicate DynamicallyAllowed(env: Env, m: Matcher, host: string) {
    env.lower(host) in m.dynamic
  }

  predicate MatchesOrigin(env: Env, m: Matcher, host: string) {
    OriginIndex.HostMatchesOrigin(env, m.mode, m.origin, host)
  }

  // The host answer the cache stores.
  predicate HostRule(env: Env, m: Matcher, host: string) {
    MatchGlob(env, host, m.cfg.host) && MatchesOrigin(env, m, host)
  }

  // What every interleaving of lookups and AllowHost keeps (see ScopeCache).
  ghost predicate CacheHoldsTheRule(env: Env, m: Matcher) {
    forall host :: host in m.cache ==> m.cache[host] == HostRule(env, m, host)
  }

  predicate HostInScope(env: Env, m: Matcher, host: string) {
    if DynamicallyAllowed(env, m, host) then true
    else if host in m.cache then m.cache[host]
    else HostRule(env, m, host)
  }

  predicate IsStaticFile(env: Env, staticExts: set<string>, path: string) {
    staticExts != {} && env.lower(env.extension(path)) != "" && env.lower(env.extension(path)) in staticExts
  }

  predicate InScopeRequest(env: Env, m: Matcher, host: string, path: string, contentType: string, raw: string) {
    && HostInScope(env, m, host)
    && MatchGlob(env, path, m.cfg.path)
    && !IsStaticFile(env, m.staticExts, path)
    && (contentType != "" ==> MatchGlob(env, contentType, m.cfg.requestContentType))
    && (raw != "" ==> MatchSubstring(env, raw, m.cfg.requestString))
  }

  predicate InScope(env: Env, m: Matcher, input: Input) {
    && HostInScope(env, m, input.host)
    && MatchGlob(env, input.path, m.cfg.path)
    && !IsStaticFile(env, m.staticExts, input.path)
    && MatchStatusCode(env, input.statusCode, m.cfg.statusCode)
    && MatchGlob(env, input.requestContentType, m.cfg.requestContentType)
    && MatchGlob(env, input.responseContentType, m.cfg.responseContentType)
    && MatchSubstring(env, input.requestRaw, m.cfg.requestString)
    && MatchSubstring(env, input.responseBody, m.cfg.responseString)
  }

  predicate ExplicitlyExcluded(env: Env, m: Matcher, host: string, path: string) {
    MatchesAny(env, host, m.cfg.host.excludes) || MatchesAny(env, path, m.cfg.path.excludes)
  }

  // The first refusal, given whether the host was allowed at run time and
  // whether origin mode admits it.
  function FirstRefusal(env: Env, cfg: Config, staticExts: set<string>, free: bool, originOK: bool, host: string,
      path: string): Reason
  {
    var hostReason :=
      if free then Admitted
      else match EvalGlob(env, host, cfg.host)
        case Excluded => HostExclude
        case NotIncluded => HostInclude
        case Pass => if originOK then Admitted else CLIOriginMode;
    if !hostReason.Admitted? then hostReason
    else match EvalGlob(env, path, cfg.path)
      case Excluded => PathExclude
      case NotIncluded => PathInclude
      case Pass => if IsStaticFile(env, staticExts, path) then StaticFile else Admitted
  }

  // RejectReason, which bypasses the cache.
  function RejectReason(env: Env, m: Matcher, host: string, path: string): Reason {
    FirstRefusal(env, m.cfg, m.staticExts, DynamicallyAllowed(env, m, host), MatchesOrigin(env, m, host), host, path)
  }

  // ------------------------------------------------- each rule on its own

  // Both sides are lower-cased, and a lone star is any value.
  ghost predicate SomeGlob(env: Env, value: string, patterns: seq<string>) {
    exists p :: p in patterns && (env.lower(p) == "*" || env.globMatch(env.lower(value), env.lower(p)))
  }

  // The text has a pattern in it somewhere, whatever the case of either.
  ghost predicate SomeText(env: Env, text: string, patterns: seq<string>) {
    exists p, k: nat :: p in patterns && At(env.lower(text), env.lower(p), k)
  }

  ghost predicate SomeStatus(env: Env, code: int, patterns: seq<string>) {
    exists p :: p in patterns && env.statusMatches(code, p)
  }

  // Nothing to include is asked for.
  predicate Open(rule: Rule) {
    rule.includes == [] || rule.includes == ["*"]
  }

  ghost predicate GlobKeeps(env: Env, value: string, rule: Rule) {
    !SomeGlob(env, value, rule.excludes) && (Open(rule) || SomeGlob(env, value, rule.includes))
  }

  ghost predicate StatusKeeps(env: Env, code: int, rule: Rule) {
    !SomeStatus(env, code, rule.excludes) && (Open(rule) || SomeStatus(env, code, rule.includes))
  }

  // A star among the substrings is open only while the rule excludes nothing;
  // with an exclude it is a character to be found.
  ghost predicate TextKeeps(env: Env, text: string, rule: Rule) {
    && !SomeText(env, text, rule.excludes)
    && (rule.includes == [] || (Open(rule) && rule.excludes == []) || SomeText(env, text, rule.includes))
  }

  // The host was allowed at run time, or passes its rule and origin mode.
  ghost predicate HostKept(env: Env, m: Matcher, host: string) {
    env.lower(host) in m.dynamic ||
      (GlobKeeps(env, host, m.cfg.host) && OriginIndex.HostMatchesOrigin(env, m.mode, m.origin, host))
  }

  // The path ends in one of the static-asset extensions.
  predicate IsAsset(env: Env, m: Matcher, path: string) {
    var extension := env.lower(env.extension(path));
    extension != "" && extension in m.staticExts
  }

  lemma GlobsAgree(env: Env, value: string, patterns: seq<string>)
    ensures MatchesAny(env, value, patterns) <==> SomeGlob(env, value, patterns)
  {
    forall p | p in patterns && (env.lower(p) == "*" || env.globMatch(env.lower(value), env.lower(p)))
      ensures MatchesAny(env, value, patterns)
    {
      var i :| 0 <= i < |patterns| && patterns[i] == p;
      assert GlobMatch(env, env.lower(value), env.lower(patterns[i]));
    }
  }

  // The switch with its early answers is the two sides of the rule.
  lemma GlobIsItsSides(env: Env, value: string, rule: Rule)
    ensures EvalGlob(env, value, rule).Excluded? <==> SomeGlob(env, value, rule.excludes)
    ensures EvalGlob(env, value, rule).Pass? <==> GlobKeeps(env, value, rule)
  {
    GlobsAgree(env, value, rule.excludes);
    GlobsAgree(env, value, rule.includes);
  }

  lemma StatusIsItsSides(env: Env, code: int, rule: Rule)
    ensures MatchStatusCode(env, code, rule) <==> StatusKeeps(env, code, rule)
  {
    forall p | p in rule.excludes && env.statusMatches(code, p) ensures !MatchStatusCode(env, code, rule) {
      var i :| 0 <= i < |rule.excludes| && rule.excludes[i] == p;
    }
    forall p | p in rule.includes && env.statusMatches(code, p)
      ensures exists i :: 0 <= i < |rule.includes| && env.statusMatches(code, rule.includes[i])
    {
      var i :| 0 <= i < |rule.includes| && rule.includes[i] == p;
    }
  }

  lemma TextsAgree(env: Env, text: string, patterns: seq<string>)
    ensures HasSubstring(env, text, patterns) <==> SomeText(env, text, patterns)
  {
    if i :| 0 <= i < |patterns| && Contains(env.lower(text), env.lower(patterns[i])) {
      assert patterns[i] in patterns;
      assert At(env.lower(text), env.lower(patterns[i]), Index(env.lower(text), env.lower(patterns[i])).value);
    }
    forall p, k: nat | p in patterns && At(env.lower(text), env.lower(p), k) ensures HasSubstring(env, text, patterns) {
      var i :| 0 <= i < |patterns| && patterns[i] == p;
      assert Contains(env.lower(text), env.lower(patterns[i]));
    }
  }

  lemma TextIsItsSides(env: Env, text: string, rule: Rule)
    ensures MatchSubstring(env, text, rule) <==> TextKeeps(env, text, rule)
  {
    TextsAgree(env, text, rule.excludes);
    TextsAgree(env, text, rule.includes);
  }

  lemma HostIsKept(env: Env, m: Matcher, host: string)
    requires CacheHoldsTheRule(env, m)
    ensures HostInScope(env, m, host) <==> HostKept(env, m, host)
  {
    GlobIsItsSides(env, host, m.cfg.host);
  }

  // ---------------------------------------------------------------- theorems

  // A record is in scope if and only if every rule, judged on its own, keeps it.
  lemma InScopeIffEveryRuleKeeps(env: Env, m: Matcher, input: Input)
    requires CacheHoldsTheRule(env, m)
    ensures InScope(env, m, input) <==>
      && HostKept(env, m, input.host)
      && GlobKeeps(env, input.path, m.cfg.path) && !IsAsset(env, m, input.path)
      && StatusKeeps(env, input.statusCode, m.cfg.statusCode)
      && GlobKeeps(env, input.requestContentType, m.cfg.requestContentType)
      && GlobKeeps(env, input.responseContentType, m.cfg.responseContentType)
      && TextKeeps(env, input.requestRaw, m.cfg.requestString)
      && TextKeeps(env, input.responseBody, m.cfg.responseString)
  {
    HostIsKept(env, m, input.host);
    GlobIsItsSides(env, input.path, m.cfg.path);
    StatusIsItsSides(env, input.statusCode, m.cfg.statusCode);
    GlobIsItsSides(env, input.requestContentType, m.cfg.requestContentType);
    GlobIsItsSides(env, input.responseContentType, m.cfg.responseContentType);
    TextIsItsSides(env, input.requestRaw, m.cfg.requestString);
    TextIsItsSides(env, input.responseBody, m.cfg.responseString);
  }

  // So is a request, whose content type and text are judged only when given.
  lemma InScopeRequestIffEveryRuleKeeps(env: Env, m: Matcher, host: string, path: string, contentType: string,
      raw: string)
    requires CacheHoldsTheRule(env, m)
    ensures InScopeRequest(env, m, host, path, contentType, raw) <==>
      && HostKept(env, m, host) && GlobKeeps(env, path, m.cfg.path) && !IsAsset(env, m, path)
      && (contentType == "" || GlobKeeps(env, contentType, m.cfg.requestContentType))
      && (raw == "" || TextKeeps(env, raw, m.cfg.requestString))
  {
    HostIsKept(env, m, host);
    GlobIsItsSides(env, path, m.cfg.path);
    GlobIsItsSides(env, contentType, m.cfg.requestContentType);
    TextIsItsSides(env, raw, m.cfg.requestString);
  }

  // The pre-send exclusion check says no exactly where an exclude names the host
  // or the path.
  lemma ExplicitlyExcludedIff(env: Env, m: Matcher, host: string, path: string)
    ensures ExplicitlyExcluded(env, m, host, path) <==>
      SomeGlob(env, host, m.cfg.host.excludes) || SomeGlob(env, path, m.cfg.path.excludes)
  {
    GlobsAgree(env, host, m.cfg.host.excludes);
    GlobsAgree(env, path, m.cfg.path.excludes);
  }

  // The verdict and its explanation agree on every input, whatever has been
  // cached and whatever hosts were allowed at run time.
  lemma ReasonExplainsTheVerdict(env: Env, m: Matcher, host: string, path: string)
    requires CacheHoldsTheRule(env, m)
    ensures RejectReason(env, m, host, path).Admitted? <==> InScopeRequest(env, m, host, path, "", "")
  {
    assert HostInScope(env, m, host) <==> DynamicallyAllowed(env, m, host) || HostRule(env, m, host);
  }

  // The rules in the order they are asked, each with whether it refuses.
  ghost function Checks(env: Env, m: Matcher, host: string, path: string): seq<(Reason, bool)> {
    var free := env.lower(host) in m.dynamic;
    [(HostExclude, !free && SomeGlob(env, host, m.cfg.host.excludes)),
     (HostInclude, !free && !Open(m.cfg.host) && !SomeGlob(env, host, m.cfg.host.includes)),
     (CLIOriginMode, !free && !OriginIndex.HostMatchesOrigin(env, m.mode, m.origin, host)),
     (PathExclude, SomeGlob(env, path, m.cfg.path.excludes)),
     (PathInclude, !Open(m.cfg.path) && !SomeGlob(env, path, m.cfg.path.includes)),
     (StaticFile, IsAsset(env, m, path))]
  }

  // The reason given is the first rule that refuses, each rule judged on its
  // own, and a target is admitted when none does.
  lemma ReasonIsTheFirstRefusal(env: Env, m: Matcher, host: string, path: string)
    ensures var checks, reason := Checks(env, m, host, path), RejectReason(env, m, host, path);
      if reason.Admitted? then forall i :: 0 <= i < |checks| ==> !checks[i].1
      else exists k :: 0 <= k < |checks| && checks[k] == (reason, true) && forall i :: 0 <= i < k ==> !checks[i].1
  {
    var checks, reason := Checks(env, m, host, path), RejectReason(env, m, host, path);
    GlobIsItsSides(env, host, m.cfg.host);
    GlobIsItsSides(env, path, m.cfg.path);
    assert reason.HostExclude? ==> checks[0] == (reason, true);
    assert reason.HostInclude? ==> checks[1] == (reason, true);
    assert reason.CLIOriginMode? ==> checks[2] == (reason, true);
    assert reason.PathExclude? ==> checks[3] == (reason, true);
    assert reason.PathInclude? ==> checks[4] == (reason, true);
    assert reason.StaticFile? ==> checks[5] == (reason, true);
  }

  // The pre-call filter never refuses a request the full check would keep.
  lemma PreFilterIsSound(env: Env, m: Matcher, input: Input)
    requires InScope(env, m, input)
    ensures InScopeRequest(env, m, input.host, input.path, input.requestContentType, input.requestRaw)
  {
  }

  // The include side of a rule on its own.
  predicate Included(env: Env, value: string, rule: Rule) {
    Open(rule) || MatchesAny(env, value, rule.includes)
  }

  lemma NoExcludeNoMatch(env: Env, value: string, rule: Rule)
    ensures IsDefaultPassAll(rule) ==> !MatchesAny(env, value, rule.excludes)
    ensures EvalGlob(env, value, rule).Pass? <==> !MatchesAny(env, value, rule.excludes) && Included(env, value, rule)
  {
  }

  // An explicitly excluded pair is out of scope, with one exception: it is in
  // scope only if its host alone is excluded and that host was allowed at run
  // time. An excluded path has no exception.
  lemma ExcludedIsOut(env: Env, m: Matcher, host: string, path: string, contentType: string, raw: string)
    requires CacheHoldsTheRule(env, m) && ExplicitlyExcluded(env, m, host, path)
    requires InScopeRequest(env, m, host, path, contentType, raw)
    ensures DynamicallyAllowed(env, m, host)
    ensures MatchesAny(env, host, m.cfg.host.excludes) && !MatchesAny(env, path, m.cfg.path.excludes)
  {
    NoExcludeNoMatch(env, host, m.cfg.host);
    NoExcludeNoMatch(env, path, m.cfg.path);
  }

  // AllowHost is exact: it changes the verdict of no other host, and of the
  // host itself only by lifting the host rules.
  lemma AllowHostIsExact(env: Env, m: Matcher, h: string, host: string, path: string)
    ensures var m' := m.(dynamic := m.dynamic + {h});
      && (env.lower(host) != h ==> RejectReason(env, m', host, path) == RejectReason(env, m, host, path))
      && (env.lower(host) == h ==>
            RejectReason(env, m', host, path) ==
              RejectReason(env, m.(cfg := m.cfg.(host := Rule([], [])), mode := "all"), host, path))
  {
    assert OriginIndex.HostMatchesOrigin(env, "all", m.origin, host);
  }
}
