/**
  The host cache and the runtime allow-set of the scope matcher, raced by any
  number of lookups and AllowHost calls. Every load and store of the shared
  maps and of the hasDynamic flag is one step.
*/
module ScopeCache {

  type Tid = nat

  // rule is the configured answer for a host: the host globs and origin mode.
  datatype Env = Env(lower: string -> string, trim: string -> string, rule: string -> bool)

  // A lookup carries `owed`: whether, when it began, an AllowHost of its host
  // had returned or an earlier lookup of the same host had answered true.
  datatype Pc =
    | Idle
    | StoreHost(h: string)
    | RaiseFlag(h: string)
    | LoadFlag(host: string, owed: bool)
    | LoadHost(host: string, owed: bool)
    | LoadCache(host: string, owed: bool)
    | StoreCache(host: string, owed: bool, result: bool)
    | Answered(host: string, owed: bool, answer: bool)

  datatype Shared = Shared(dynamic: set<string>, hasDynamic: bool, cache: map<string, bool>,
                           // history: AllowHost calls begun and returned, hosts answered true
                           begun: set<string>, returned: set<string>, admitted: set<string>)

  datatype State = State(sh: Shared, pc: map<Tid, Pc>)

  datatype Step =
    | CallAllow(t: Tid, host: string)
    | CallLookup(t: Tid, host: string)
    | Advance(t: Tid)

  function PcOf(s: State, t: Tid): Pc {
    if t in s.pc then s.pc[t] else Idle
  }

  predicate Can(pc: Pc, step: Step) {
    if step.Advance? then !pc.Idle? && !pc.Answered? else pc.Idle? || pc.Answered?
  }

  // The lookup's answer is out.
  function Answer(sh: Shared, host: string, answer: bool): Shared {
    if answer then sh.(admitted := sh.admitted + {host}) else sh
  }

  predicate IsOwed(env: Env, sh: Shared, host: string) {
    env.lower(host) in sh.returned || host in sh.admitted
  }

  function Next(env: Env, sh: Shared, pc: Pc, step: Step): (Shared, Pc)
    requires Can(pc, step)
  {
    match step
    case CallAllow(_, host) =>
      var h := env.lower(env.trim(host));
      if h == "" then (sh, Idle) else (sh.(begun := sh.begun + {h}), StoreHost(h))
    case CallLookup(_, host) => (sh, LoadFlag(host, IsOwed(env, sh, host)))
    case Advance(_) =>
      match pc
      case StoreHost(h) => (sh.(dynamic := sh.dynamic + {h}), RaiseFlag(h))
      case RaiseFlag(h) => (sh.(hasDynamic := true, returned := sh.returned + {h}), Idle)
      case LoadFlag(host, owed) =>
        (sh, if sh.hasDynamic then LoadHost(host, owed) else LoadCache(host, owed))
      case LoadHost(host, owed) =>
        if env.lower(host) in sh.dynamic then (Answer(sh, host, true), Answered(host, owed, true))
        else (sh, LoadCache(host, owed))
      case LoadCache(host, owed) =>
        if host in sh.cache then (Answer(sh, host, sh.cache[host]), Answered(host, owed, sh.cache[host]))
        else (sh, StoreCache(host, owed, env.rule(host)))
      case StoreCache(host, owed, result) =>
        (Answer(sh.(cache := sh.cache[host := result]), host, result), Answered(host, owed, result))
      case _ => (sh, pc)
  }

  predicate Enabled(s: State, step: Step) { Can(PcOf(s, step.t), step) }

  function Apply(env: Env, s: State, step: Step): State
    requires Enabled(s, step)
  {
    var (sh, pc) := Next(env, s.sh, PcOf(s, step.t), step);
    State(sh, s.pc[step.t := pc])
  }

  const FRESH := State(Shared({}, false, map[], {}, {}, {}), map[])

  ghost predicate IsRun(env: Env, s: State, steps: seq<Step>, end: State)
    decreases |steps|
  {
    if steps == [] then end == s
    else Enabled(s, steps[0]) && IsRun(env, Apply(env, s, steps[0]), steps[1..], end)
  }

  // --------------------------------------------------------------- invariant

  // A lookup of host that begins now will find the host allowed.
  predicate Allowed(env: Env, sh: Shared, host: string) {
    env.rule(host) || (sh.hasDynamic && env.lower(host) in sh.dynamic)
  }

  ghost predicate SharedInv(env: Env, sh: Shared) {
    && (forall h :: h in sh.cache ==> sh.cache[h] == env.rule(h))
    && sh.returned <= sh.dynamic <= sh.begun && (sh.returned != {} ==> sh.hasDynamic)
    && (forall h :: h in sh.admitted ==> Allowed(env, sh, h))
  }

  predicate PcInv(env: Env, sh: Shared, pc: Pc) {
    match pc
    case Idle => true
    case StoreHost(h) => h in sh.begun
    case RaiseFlag(h) => h in sh.dynamic
    case LoadFlag(host, owed) => owed ==> Allowed(env, sh, host)
    case LoadHost(host, owed) => sh.hasDynamic && (owed ==> Allowed(env, sh, host))
    case LoadCache(host, owed) => owed ==> env.rule(host)
    case StoreCache(host, owed, result) => result == env.rule(host) && (owed ==> result)
    case Answered(host, owed, answer) =>
      && (owed ==> answer) && (env.rule(host) ==> answer)
      && (answer ==> host in sh.admitted && (env.rule(host) || env.lower(host) in sh.begun))
  }

  ghost predicate Inv(env: Env, s: State) {
    SharedInv(env, s.sh) && forall t: Tid {:trigger PcOf(s, t)} :: PcInv(env, s.sh, PcOf(s, t))
  }

  // The shared state only grows, so what one thread relies on no other thread
  // can take away.
  predicate Grows(env: Env, a: Shared, b: Shared) {
    && a.dynamic <= b.dynamic && a.begun <= b.begun && a.returned <= b.returned && a.admitted <= b.admitted
    && (a.hasDynamic ==> b.hasDynamic) && a.cache.Keys <= b.cache.Keys
  }

  lemma MoverKeeps(env: Env, sh: Shared, pc: Pc, step: Step)
    requires SharedInv(env, sh) && PcInv(env, sh, pc) && Can(pc, step)
    ensures var (sh', pc') := Next(env, sh, pc, step);
      SharedInv(env, sh') && PcInv(env, sh', pc') && Grows(env, sh, sh')
  {
  }

  lemma OtherKeeps(env: Env, sh: Shared, sh': Shared, pc: Pc)
    requires PcInv(env, sh, pc) && Grows(env, sh, sh')
    ensures PcInv(env, sh', pc)
  {
  }

  lemma StepKeepsInv(env: Env, s: State, step: Step)
    requires Inv(env, s) && Enabled(s, step)
    ensures Inv(env, Apply(env, s, step)) && Grows(env, s.sh, Apply(env, s, step).sh)
  {
    var s' := Apply(env, s, step);
    MoverKeeps(env, s.sh, PcOf(s, step.t), step);
    forall t: Tid ensures PcInv(env, s'.sh, PcOf(s', t)) {
      if t != step.t { OtherKeeps(env, s.sh, s'.sh, PcOf(s, t)); }
    }
  }

  lemma {:induction false} RunKeepsInv(env: Env, s: State, steps: seq<Step>, end: State)
    requires Inv(env, s) && IsRun(env, s, steps, end)
    ensures Inv(env, end) && Grows(env, s.sh, end.sh)
    decreases |steps|
  {
    if steps != [] {
      StepKeepsInv(env, s, steps[0]);
      RunKeepsInv(env, Apply(env, s, steps[0]), steps[1..], end);
    }
  }

  // ---------------------------------------------------------------- theorems

  // Whatever the interleaving, the cache never holds anything but the
  // configured answer; in particular AllowHost never leaks into it.
  lemma CacheHoldsTheRule(env: Env, steps: seq<Step>, s: State, host: string)
    requires IsRun(env, FRESH, steps, s) && host in s.sh.cache
    ensures s.sh.cache[host] == env.rule(host)
  {
    RunKeepsInv(env, FRESH, steps, s);
  }

  // Every answer is right: true whenever the rule says so, true when it was
  // owed, and never true without the rule or an AllowHost begun for the host.
  lemma AnswersAreJustified(env: Env, steps: seq<Step>, s: State, t: Tid)
    requires IsRun(env, FRESH, steps, s) && PcOf(s, t).Answered?
    ensures var pc := PcOf(s, t);
      && (pc.owed || env.rule(pc.host) ==> pc.answer)
      && (pc.answer ==> env.rule(pc.host) || env.lower(pc.host) in s.sh.begun)
  {
    RunKeepsInv(env, FRESH, steps, s);
  }

  // The lookup thread t makes stays the one it began with until it begins
  // another call.
  predicate SameLookup(pc: Pc, host: string, owed: bool) {
    match pc
    case LoadFlag(h, o) => h == host && o == owed
    case LoadHost(h, o) => h == host && o == owed
    case LoadCache(h, o) => h == host && o == owed
    case StoreCache(h, o, _) => h == host && o == owed
    case Answered(h, o, _) => h == host && o == owed
    case _ => false
  }

  lemma {:induction false} LookupRuns(env: Env, s: State, steps: seq<Step>, end: State, t: Tid, host: string,
      owed: bool)
    requires IsRun(env, s, steps, end) && SameLookup(PcOf(s, t), host, owed)
    requires forall i :: 0 <= i < |steps| && steps[i].t == t ==> steps[i].Advance?
    ensures SameLookup(PcOf(end, t), host, owed)
    decreases |steps|
  {
    if steps != [] {
      LookupRuns(env, Apply(env, s, steps[0]), steps[1..], end, t, host, owed);
    }
  }

  lemma OwedIsAdmitted(env: Env, s: State, t: Tid, host: string, steps: seq<Step>, end: State)
    requires Inv(env, s) && Enabled(s, CallLookup(t, host)) && IsOwed(env, s.sh, host)
    requires IsRun(env, Apply(env, s, CallLookup(t, host)), steps, end) && PcOf(end, t).Answered?
    requires forall i :: 0 <= i < |steps| && steps[i].t == t ==> steps[i].Advance?
    ensures PcOf(end, t) == Answered(host, true, true)
  {
    StepKeepsInv(env, s, CallLookup(t, host));
    LookupRuns(env, Apply(env, s, CallLookup(t, host)), steps, end, t, host, true);
    RunKeepsInv(env, Apply(env, s, CallLookup(t, host)), steps, end);
  }

  // AllowHost takes effect at once and for good. A lookup of h's host begun in
  // a state where an AllowHost of it has returned, or where any lookup of the
  // same host has ever answered true, answers true, even if a lookup racing it
  // caches a refusal meanwhile.
  lemma AllowedHostIsAdmitted(env: Env, before: seq<Step>, s: State, t: Tid, host: string, steps: seq<Step>, end: State)
    requires IsRun(env, FRESH, before, s) && Enabled(s, CallLookup(t, host)) && IsOwed(env, s.sh, host)
    requires IsRun(env, Apply(env, s, CallLookup(t, host)), steps, end) && PcOf(end, t).Answered?
    requires forall i :: 0 <= i < |steps| && steps[i].t == t ==> steps[i].Advance?
    ensures PcOf(end, t) == Answered(host, true, true)
  {
    RunKeepsInv(env, FRESH, before, s);
    OwedIsAdmitted(env, s, t, host, steps, end);
  }

  // ------------------------------------------------- calls from end to end

  // An idle thread may begin either call. AllowHost of a blank host does nothing;
  // of any other it takes two steps, nobody can hold it up, and it leaves the
  // host, trimmed and lower-cased, allowed and the cache alone.
  lemma AllowHostTakesTwoSteps(env: Env, s: State, t: Tid, host: string)
    requires PcOf(s, t).Idle? || PcOf(s, t).Answered?
    ensures Enabled(s, CallLookup(t, host)) && Enabled(s, CallAllow(t, host))
    ensures var h, s1 := env.lower(env.trim(host)), Apply(env, s, CallAllow(t, host));
      if h == "" then PcOf(s1, t).Idle? && s1.sh == s.sh
      else
        Enabled(s1, Advance(t)) && var s2 := Apply(env, s1, Advance(t));
        Enabled(s2, Advance(t)) && var s3 := Apply(env, s2, Advance(t));
        PcOf(s3, t).Idle? && s3.sh.dynamic == s.sh.dynamic + {h} && s3.sh.hasDynamic && s3.sh.cache == s.sh.cache
  {
  }

  // How many steps a lookup is from its answer at most.
  function StepsLeft(pc: Pc): nat {
    match pc
    case LoadFlag(_, _) => 4
    case LoadHost(_, _) => 3
    case LoadCache(_, _) => 2
    case StoreCache(_, _, _) => 1
    case _ => 0
  }

  predicate LooksUp(pc: Pc, host: string) {
    match pc
    case LoadFlag(h, _) => h == host
    case LoadHost(h, _) => h == host
    case LoadCache(h, _) => h == host
    case StoreCache(h, _, _) => h == host
    case _ => false
  }

  // A lookup answers in four steps of its own, and waits for nobody. A host that is
  // cached is answered from there; one that is not is answered by the rule and
  // cached.
  lemma LookupGoesOn(env: Env, s: State, t: Tid, host: string)
    requires LooksUp(PcOf(s, t), host)
    ensures Enabled(s, Advance(t))
    ensures var pc, s' := PcOf(s, t), Apply(env, s, Advance(t));
      var pc' := PcOf(s', t);
      && (pc'.Answered? ==> pc'.host == host)
      && (!pc'.Answered? ==> LooksUp(pc', host) && StepsLeft(pc') < StepsLeft(pc))
      && (pc.LoadCache? && host in s.sh.cache ==>
            pc'.Answered? && pc'.answer == s.sh.cache[host] && s'.sh.cache == s.sh.cache)
      && (pc.LoadCache? && host !in s.sh.cache ==> pc'.StoreCache? && pc'.result == env.rule(host))
      && (pc.StoreCache? ==> pc'.Answered? && pc'.answer == pc.result && s'.sh.cache == s.sh.cache[host := pc.result])
  {
  }

  // Once an AllowHost of a host has taken its last step, every lookup of the host
  // that begins later answers true.
  lemma AllowedIsSeen(env: Env, before: seq<Step>, s1: State, u: Tid, middle: seq<Step>, s2: State, t: Tid,
      host: string, after: seq<Step>, end: State)
    requires IsRun(env, FRESH, before, s1) && PcOf(s1, u) == RaiseFlag(env.lower(host))
    requires IsRun(env, Apply(env, s1, Advance(u)), middle, s2) && Enabled(s2, CallLookup(t, host))
    requires IsRun(env, Apply(env, s2, CallLookup(t, host)), after, end) && PcOf(end, t).Answered?
    requires forall i :: 0 <= i < |after| && after[i].t == t ==> after[i].Advance?
    ensures PcOf(end, t).host == host && PcOf(end, t).answer
  {
    RunKeepsInv(env, FRESH, before, s1);
    StepKeepsInv(env, s1, Advance(u));
    RunKeepsInv(env, Apply(env, s1, Advance(u)), middle, s2);
    OwedIsAdmitted(env, s2, t, host, after, end);
  }

  // Once a lookup has answered true, no later one of the host answers false.
  lemma AnswersDoNotTurn(env: Env, before: seq<Step>, s1: State, u: Tid, middle: seq<Step>, s2: State, t: Tid,
      host: string, after: seq<Step>, end: State)
    requires IsRun(env, FRESH, before, s1)
    requires PcOf(s1, u).Answered? && PcOf(s1, u).host == host && PcOf(s1, u).answer
    requires IsRun(env, s1, middle, s2) && Enabled(s2, CallLookup(t, host))
    requires IsRun(env, Apply(env, s2, CallLookup(t, host)), after, end) && PcOf(end, t).Answered?
    requires forall i :: 0 <= i < |after| && after[i].t == t ==> after[i].Advance?
    ensures PcOf(end, t).host == host && PcOf(end, t).answer
  {
    RunKeepsInv(env, FRESH, before, s1);
    RunKeepsInv(env, s1, middle, s2);
    OwedIsAdmitted(env, s2, t, host, after, end);
  }
}
