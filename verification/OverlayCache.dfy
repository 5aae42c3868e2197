/**
  The cache of parsed project overlays: a parse is reused while the file's
  modification time and size are the ones a load saw before it read the file.

  The class is the cache as one caller sees it. Below it loads run in steps (the
  stat, the look into the cache, the read and parse, the store), interleaved with
  this process's own writes, which drop the cached parse once the file is
  replaced, and with writes of other processes, which do not.
*/
module OverlayCache {
  import opened Common

  type Profile = string

  datatype Stamp = Stamp(modTime: int, size: int)

  datatype File = Absent | Unreadable | Directory | File(stamp: Stamp, text: string)

  // parse is the profile of a text, if it loads.
  datatype Env = Env(parse: string -> Option<Profile>)

  datatype Entry = Entry(stamp: Stamp, profile: Profile)

  datatype Error = CannotStat | IsDirectory | CannotRead | DoesNotParse

  type Reply = Result<Option<Profile>, Error>

  // What reading and parsing the file gives; nothing for a missing file.
  function Parsed(env: Env, f: File): Reply {
    match f
    case Absent => Ok(None)
    case Unreadable => Err(CannotRead)
    case Directory => Err(CannotRead)
    case File(_, text) => if env.parse(text).Some? then Ok(env.parse(text)) else Err(DoesNotParse)
  }

  // The cache and the answer after a load whose stat saw one file and whose read,
  // if it comes to that, another.
  function AfterLoad(env: Env, entries: map<string, Entry>, path: string, stat: File, read: File): map<string, Entry> {
    if stat.Absent? then entries - {path}
    else if stat.File? && !(path in entries && entries[path].stamp == stat.stamp)
            && read.File? && env.parse(read.text).Some? then
      entries[path := Entry(stat.stamp, env.parse(read.text).value)]
    else entries
  }

  function Answer(env: Env, entries: map<string, Entry>, path: string, stat: File, read: File): Reply {
    match stat
    case Absent => Ok(None)
    case Unreadable => Err(CannotStat)
    case Directory => Err(IsDirectory)
    case File(stamp, _) =>
      if path in entries && entries[path].stamp == stamp then Ok(Some(entries[path].profile)) else Parsed(env, read)
  }

  class Cache {
    var entries: map<string, Entry>

    constructor ()
      ensures entries == map[]
    {
      entries := map[];
    }

    method Invalidate(path: string)
      modifies this
      ensures entries == old(entries) - {path}
    {
      entries := entries - {path};
    }

    method Load(env: Env, path: string, stat: File, read: File) returns (r: Reply)
      modifies this
      ensures entries == AfterLoad(env, old(entries), path, stat, read)
      ensures r == Answer(env, old(entries), path, stat, read)
    {
      match stat
      case Absent =>
        Invalidate(path);
        r := Ok(None);
      case Unreadable => r := Err(CannotStat);
      case Directory => r := Err(IsDirectory);
      case File(stamp, _) =>
        if path in entries && entries[path].stamp == stamp {
          return Ok(Some(entries[path].profile));
        }
        r := Parsed(env, read);
        if r.Ok? && r.value.Some? {
          entries := entries[path := Entry(stamp, r.value.value)];
        }
    }
  }

  // ------------------------------------------------------ loads run in steps

  type Tid = nat

  // A cached parse of one file. Which of the file's versions its stamp and its
  // text were seen in is bookkeeping.
  datatype Kept = Kept(e: Entry, statAt: nat, readAt: nat)

  // `at` is the version a load's stat saw.
  datatype Pc =
    | Idle
    | Statted(at: nat)
    | Dropping(at: nat)
    | Reading(at: nat)
    | Storing(k: Kept)
    | Answered(at: nat, upto: nat, r: Reply)
    | Invalidating

  // Every version of the file so far, the last one on disk, and the cached parse.
  datatype State = State(versions: seq<File>, entry: Option<Kept>, pc: map<Tid, Pc>)

  datatype Step =
    | Stat(t: Tid)
    | Drop(t: Tid)
    | Look(t: Tid)
    | Read(t: Tid)
    | Store(t: Tid)
    | OwnWrite(t: Tid, f: File)
    | Invalidate(t: Tid)
    | ForeignWrite(f: File)

  function PcOf(s: State, t: Tid): Pc {
    if t in s.pc then s.pc[t] else Idle
  }

  function Newest(s: State): nat
    requires s.versions != []
  {
    |s.versions| - 1
  }

  function Disk(s: State): File
    requires s.versions != []
  {
    s.versions[|s.versions| - 1]
  }

  // Between calls.
  predicate Free(pc: Pc) { pc.Idle? || pc.Answered? }

  // A load was made of versions that there have been.
  predicate MadeOf(env: Env, versions: seq<File>, k: Kept) {
    && k.statAt <= k.readAt < |versions|
    && versions[k.statAt].File? && versions[k.statAt].stamp == k.e.stamp
    && versions[k.readAt].File? && env.parse(versions[k.readAt].text) == Some(k.e.profile)
  }

  predicate Running(env: Env, versions: seq<File>, pc: Pc) {
    match pc
    case Statted(at) => at < |versions| && versions[at].File?
    case Reading(at) => at < |versions| && versions[at].File?
    case Dropping(at) => at < |versions| && versions[at].Absent?
    case Storing(k) => MadeOf(env, versions, k)
    case Answered(at, upto, _) => at <= upto < |versions|
    case _ => true
  }

  predicate Enabled(s: State, step: Step) {
    && s.versions != []
    && match step
       case Stat(t) => Free(PcOf(s, t))
       case Drop(t) => PcOf(s, t).Dropping?
       case Look(t) => PcOf(s, t).Statted? && PcOf(s, t).at < |s.versions| && s.versions[PcOf(s, t).at].File?
       case Read(t) => PcOf(s, t).Reading? && PcOf(s, t).at < |s.versions| && s.versions[PcOf(s, t).at].File?
       case Store(t) => PcOf(s, t).Storing?
       case OwnWrite(t, _) => Free(PcOf(s, t))
       case Invalidate(t) => PcOf(s, t).Invalidating?
       case ForeignWrite(_) => true
  }

  // What a stat leads to.
  function AfterStat(f: File, now: nat): Pc {
    match f
    case Absent => Dropping(now)
    case Unreadable => Answered(now, now, Err(CannotStat))
    case Directory => Answered(now, now, Err(IsDirectory))
    case File(_, _) => Statted(now)
  }

  // What a read under a stamp leads to: a parse to store, or an answer.
  function AfterRead(env: Env, stamp: Stamp, at: nat, f: File, now: nat): Pc {
    match Parsed(env, f)
    case Ok(Some(profile)) => Storing(Kept(Entry(stamp, profile), at, now))
    case r => Answered(at, now, r)
  }

  function Apply(env: Env, s: State, step: Step): State
    requires Enabled(s, step)
  {
    match step
    case Stat(t) => s.(pc := s.pc[t := AfterStat(Disk(s), Newest(s))])
    case Drop(t) => s.(entry := None, pc := s.pc[t := Answered(PcOf(s, t).at, Newest(s), Ok(None))])
    case Look(t) =>
      var at := PcOf(s, t).at;
      if s.entry.Some? && s.entry.value.e.stamp == s.versions[at].stamp then
        s.(pc := s.pc[t := Answered(at, Newest(s), Ok(Some(s.entry.value.e.profile)))])
      else s.(pc := s.pc[t := Reading(at)])
    case Read(t) =>
      var at := PcOf(s, t).at;
      s.(pc := s.pc[t := AfterRead(env, s.versions[at].stamp, at, Disk(s), Newest(s))])
    case Store(t) =>
      var k := PcOf(s, t).k;
      s.(entry := Some(k), pc := s.pc[t := Answered(k.statAt, Newest(s), Ok(Some(k.e.profile)))])
    case OwnWrite(t, f) => s.(versions := s.versions + [f], pc := s.pc[t := Invalidating])
    case Invalidate(t) => s.(entry := None, pc := s.pc[t := Idle])
    case ForeignWrite(f) => s.(versions := s.versions + [f])
  }

  ghost predicate IsRun(env: Env, s: State, steps: seq<Step>, end: State)
    decreases |steps|
  {
    if steps == [] then end == s
    else Enabled(s, steps[0]) && IsRun(env, Apply(env, s, steps[0]), steps[1..], end)
  }

  predicate IsInitial(s: State) {
    |s.versions| == 1 && s.entry.None? && s.pc == map[]
  }

  ghost predicate Reachable(env: Env, s: State) {
    exists s0, steps :: IsInitial(s0) && IsRun(env, s0, steps, s)
  }

  ghost predicate Inv(env: Env, s: State) {
    && s.versions != [] && (s.entry.Some? ==> MadeOf(env, s.versions, s.entry.value))
    && forall t: Tid {:trigger PcOf(s, t)} :: Running(env, s.versions, PcOf(s, t))
  }

  lemma StepKeepsInv(env: Env, s: State, step: Step)
    requires Inv(env, s) && Enabled(s, step)
    ensures Inv(env, Apply(env, s, step)) && s.versions <= Apply(env, s, step).versions
  {
    var s' := Apply(env, s, step);
    forall t: Tid ensures Running(env, s'.versions, PcOf(s', t)) {
      assert Running(env, s.versions, PcOf(s, t));
    }
  }

  // ------------------------------------------------- what a load may answer

  // r is what a file says: nothing, its profile, or an error.
  predicate Says(env: Env, f: File, r: Reply) {
    match f
    case Absent => r == Ok(None)
    case File(_, text) => r == if env.parse(text).Some? then Ok(env.parse(text)) else Err(DoesNotParse)
    case _ => r.Err?
  }

  // No two versions of the file have the same time and size.
  predicate StampsDiffer(versions: seq<File>) {
    forall i, j :: 0 <= i < j < |versions| && versions[i].File? && versions[j].File? ==>
      versions[i].stamp != versions[j].stamp
  }

  // A load answers with one of the versions there were while it ran.
  predicate Within(env: Env, versions: seq<File>, pc: Pc) {
    pc.Answered? ==> pc.upto < |versions| && exists k :: pc.at <= k <= pc.upto && Says(env, versions[k], pc.r)
  }

  ghost predicate AllWithin(env: Env, s: State) {
    forall t: Tid {:trigger PcOf(s, t)} :: Within(env, s.versions, PcOf(s, t))
  }

  // A load that ends in this step answers so, given what it has seen.
  lemma AnswersWithin(env: Env, s: State, step: Step, t: Tid)
    requires Inv(env, s) && Enabled(s, step) && StampsDiffer(s.versions) && AllWithin(env, s)
    ensures Within(env, Apply(env, s, step).versions, PcOf(Apply(env, s, step), t))
  {
    var s' := Apply(env, s, step);
    var was, now := PcOf(s, t), PcOf(s', t);
    assert Running(env, s.versions, was) && Within(env, s.versions, was);
    if now == was {
      if now.Answered? {
        var k :| was.at <= k <= was.upto && Says(env, s.versions[k], was.r);
        assert s'.versions[k] == s.versions[k];
      }
    } else if step.Look? && now.Answered? {
      assert s.entry.value.statAt == was.at;
      assert Says(env, s.versions[s.entry.value.readAt], now.r);
    } else if step.Store? {
      assert Says(env, s.versions[was.k.readAt], now.r);
    } else if step.Drop? {
      assert Says(env, s.versions[was.at], now.r);
    } else if now.Answered? {
      assert Says(env, Disk(s), now.r);
    }
  }

  lemma {:induction false} VersionsGrow(env: Env, s: State, steps: seq<Step>, end: State)
    requires Inv(env, s) && IsRun(env, s, steps, end)
    ensures s.versions <= end.versions && Inv(env, end)
    decreases |steps|
  {
    if steps != [] {
      StepKeepsInv(env, s, steps[0]);
      VersionsGrow(env, Apply(env, s, steps[0]), steps[1..], end);
    }
  }

  lemma {:induction false} RunAnswersWithin(env: Env, s: State, steps: seq<Step>, end: State)
    requires Inv(env, s) && AllWithin(env, s) && IsRun(env, s, steps, end) && StampsDiffer(end.versions)
    ensures Inv(env, end) && AllWithin(env, end) && s.versions <= end.versions
    decreases |steps|
  {
    if steps != [] {
      var s' := Apply(env, s, steps[0]);
      StepKeepsInv(env, s, steps[0]);
      VersionsGrow(env, s', steps[1..], end);
      assert StampsDiffer(s.versions) by {
        assert forall i :: 0 <= i < |s.versions| ==> end.versions[i] == s.versions[i];
      }
      forall t: Tid ensures Within(env, s'.versions, PcOf(s', t)) { AnswersWithin(env, s, steps[0], t); }
      RunAnswersWithin(env, s', steps[1..], end);
    }
  }

  lemma ReachableInv(env: Env, s: State)
    requires Reachable(env, s)
    ensures Inv(env, s)
  {
    var s0, steps :| IsInitial(s0) && IsRun(env, s0, steps, s);
    VersionsGrow(env, s0, steps, s);
  }

  // While no time and size come back, every load, however it is interleaved with
  // other loads and with writes of this and other processes, answers with what
  // the file held at some moment between its stat and its end.
  lemma LoadAnswersWithin(env: Env, s: State, t: Tid)
    requires Reachable(env, s) && StampsDiffer(s.versions) && PcOf(s, t).Answered?
    ensures var pc := PcOf(s, t);
      pc.upto < |s.versions| && exists k :: pc.at <= k <= pc.upto && Says(env, s.versions[k], pc.r)
  {
    var s0, steps :| IsInitial(s0) && IsRun(env, s0, steps, s);
    RunAnswersWithin(env, s0, steps, s);
    assert Within(env, s.versions, PcOf(s, t));
  }

  // ------------------------------------------- when later loads are current

  // A parse kept under the file's stamp, if it is, is of the file's content.
  predicate Good(env: Env, f: File, e: Entry) {
    f.File? && f.stamp == e.stamp ==> env.parse(f.text) == Some(e.profile)
  }

  // The cached parse is good and so is every one a load still has to store.
  ghost predicate Settled(env: Env, s: State)
    requires s.versions != []
  {
    && (s.entry.Some? ==> Good(env, Disk(s), s.entry.value.e))
    && forall t: Tid {:trigger PcOf(s, t)} :: PcOf(s, t).Storing? ==> Good(env, Disk(s), PcOf(s, t).k.e)
  }

  predicate WriteFree(steps: seq<Step>) {
    forall i :: 0 <= i < |steps| ==> !steps[i].OwnWrite? && !steps[i].ForeignWrite?
  }

  // Until the file is written again, every load that begins answers with it.
  ghost predicate LaterLoadsAreCurrent(env: Env, s: State)
    requires s.versions != []
  {
    forall steps, end, t: Tid ::
      IsRun(env, s, steps, end) && WriteFree(steps) && PcOf(s, t).Idle? && PcOf(end, t).Answered? ==>
        Says(env, Disk(s), PcOf(end, t).r)
  }

  // A load that has seen the newest version and nothing else.
  predicate Current(env: Env, s: State, pc: Pc)
    requires s.versions != []
  {
    match pc
    case Statted(at) => at == Newest(s)
    case Reading(at) => at == Newest(s)
    case Dropping(at) => at == Newest(s)
    case Storing(k) => k.readAt == Newest(s)
    case Answered(_, _, r) => Says(env, Disk(s), r)
    case _ => true
  }

  lemma StepStaysCurrent(env: Env, s: State, step: Step, t: Tid)
    requires Inv(env, s) && Settled(env, s) && Enabled(s, step) && !step.OwnWrite? && !step.ForeignWrite?
    requires Current(env, s, PcOf(s, t))
    ensures var s' := Apply(env, s, step);
      s'.versions == s.versions && Settled(env, s') && Current(env, s', PcOf(s', t))
  {
    var s' := Apply(env, s, step);
    assert Running(env, s.versions, PcOf(s, t));
    forall u: Tid | PcOf(s', u).Storing? ensures Good(env, Disk(s'), PcOf(s', u).k.e) {
      assert Running(env, s.versions, PcOf(s, u));
    }
  }

  lemma {:induction false} RunStaysCurrent(env: Env, s: State, steps: seq<Step>, end: State, t: Tid)
    requires Inv(env, s) && Settled(env, s) && IsRun(env, s, steps, end) && WriteFree(steps)
    requires Current(env, s, PcOf(s, t))
    ensures end.versions == s.versions && Current(env, end, PcOf(end, t))
    decreases |steps|
  {
    if steps != [] {
      StepKeepsInv(env, s, steps[0]);
      StepStaysCurrent(env, s, steps[0], t);
      RunStaysCurrent(env, Apply(env, s, steps[0]), steps[1..], end, t);
    }
  }

  // A run without writes in which t loads this profile.
  ghost predicate Serves(env: Env, s: State, steps: seq<Step>, end: State, t: Tid, profile: Profile) {
    IsRun(env, s, steps, end) && WriteFree(steps) && PcOf(end, t).Answered? && PcOf(end, t).r == Ok(Some(profile))
  }

  lemma ServesAfter(env: Env, s: State, first: Step, steps: seq<Step>, end: State, t: Tid, profile: Profile)
    requires Enabled(s, first) && !first.OwnWrite? && !first.ForeignWrite?
    requires Serves(env, Apply(env, s, first), steps, end, t, profile)
    ensures Serves(env, s, [first] + steps, end, t, profile)
  {
    var all := [first] + steps;
    assert all[1..] == steps;
    assert forall i :: 0 < i < |all| ==> all[i] == steps[i - 1];
  }

  // A cached parse that is not good is what the next load answers.
  lemma StaleIsServed(env: Env, s: State, t: Tid)
    requires Inv(env, s) && s.entry.Some? && !Good(env, Disk(s), s.entry.value.e) && PcOf(s, t).Idle?
    ensures exists steps, end :: Serves(env, s, steps, end, t, s.entry.value.e.profile)
    ensures Disk(s).File? && env.parse(Disk(s).text) != Some(s.entry.value.e.profile)
  {
    var s1 := Apply(env, s, Stat(t));
    var s2 := Apply(env, s1, Look(t));
    assert IsRun(env, s2, [], s2) && [Look(t)][1..] == [];
    assert IsRun(env, s1, [Look(t)], s2) && [Stat(t), Look(t)][1..] == [Look(t)];
    assert Serves(env, s, [Stat(t), Look(t)], s2, t, s.entry.value.e.profile);
  }

  lemma UnsettledServesStale(env: Env, s: State)
    requires Inv(env, s) && !Settled(env, s)
    ensures !LaterLoadsAreCurrent(env, s)
  {
    var t := FreshNat(s.pc.Keys);
    if s.entry.Some? && !Good(env, Disk(s), s.entry.value.e) {
      StaleIsServed(env, s, t);
    } else {
      var u: Tid :| PcOf(s, u).Storing? && !Good(env, Disk(s), PcOf(s, u).k.e);
      var s' := Apply(env, s, Store(u));
      StepKeepsInv(env, s, Store(u));
      StaleIsServed(env, s', t);
      var profile := s'.entry.value.e.profile;
      var steps, end :| Serves(env, s', steps, end, t, profile);
      ServesAfter(env, s, Store(u), steps, end, t, profile);
    }
  }

  // Later loads are current exactly when the cache is settled: what is cached is
  // good, and so is every parse on its way into it.
  lemma LaterLoadsAreCurrentIff(env: Env, s: State)
    requires Inv(env, s)
    ensures LaterLoadsAreCurrent(env, s) <==> Settled(env, s)
  {
    if Settled(env, s) {
      forall steps, end, t: Tid | IsRun(env, s, steps, end) && WriteFree(steps) && PcOf(s, t).Idle? &&
        PcOf(end, t).Answered?
        ensures Says(env, Disk(s), PcOf(end, t).r)
      {
        RunStaysCurrent(env, s, steps, end, t);
      }
    } else {
      UnsettledServesStale(env, s);
    }
  }

  // A write of this process, once its invalidation is done, is what every later
  // load answers if and only if no load that is still running has already parsed
  // other content under the file's present time and size.
  lemma WriteIsSeenIff(env: Env, s: State, t: Tid)
    requires Inv(env, s) && PcOf(s, t).Invalidating?
    ensures LaterLoadsAreCurrent(env, Apply(env, s, Invalidate(t))) <==>
      forall u: Tid :: PcOf(s, u).Storing? ==> Good(env, Disk(s), PcOf(s, u).k.e)
  {
    var s' := Apply(env, s, Invalidate(t));
    StepKeepsInv(env, s, Invalidate(t));
    LaterLoadsAreCurrentIff(env, s');
    assert forall u: Tid :: u != t ==> PcOf(s', u) == PcOf(s, u);
  }

  // While no time and size come back that is always so.
  lemma DifferentStampsSettle(env: Env, s: State)
    requires Inv(env, s) && StampsDiffer(s.versions)
    ensures Settled(env, s) && LaterLoadsAreCurrent(env, s)
  {
    forall t: Tid | PcOf(s, t).Storing? ensures Good(env, Disk(s), PcOf(s, t).k.e) {
      assert Running(env, s.versions, PcOf(s, t));
    }
    LaterLoadsAreCurrentIff(env, s);
  }

  // ---------------------------------------------------------- the parse returns

  lemma {:induction false} RunSnoc(env: Env, s: State, steps: seq<Step>, end: State, step: Step)
    requires IsRun(env, s, steps, end) && Enabled(end, step)
    ensures IsRun(env, s, steps + [step], Apply(env, end, step))
    decreases |steps|
  {
    if steps == [] {
      assert [step][1..] == [] && IsRun(env, Apply(env, s, step), [], Apply(env, s, step));
    } else {
      RunSnoc(env, Apply(env, s, steps[0]), steps[1..], end, step);
      assert (steps + [step])[1..] == steps[1..] + [step];
    }
  }

  lemma ReachesNext(env: Env, s: State, step: Step)
    requires Reachable(env, s) && Enabled(s, step)
    ensures Reachable(env, Apply(env, s, step))
  {
    var s0, steps :| IsInitial(s0) && IsRun(env, s0, steps, s);
    RunSnoc(env, s0, steps, s, step);
  }

  // A load parses the file, the file is replaced within the same time and size...
  ghost predicate Overtaken(env: Env, s: State, stamp: Stamp, before: Profile, after: string) {
    && Reachable(env, s) && s.pc == map[1 := Storing(Kept(Entry(stamp, before), 0, 0)), 2 := Invalidating]
    && s.versions != [] && Disk(s) == File(stamp, after)
  }

  lemma LoadIsOvertaken(env: Env, stamp: Stamp, before: string, after: string)
    requires env.parse(before).Some?
    ensures exists s :: Overtaken(env, s, stamp, env.parse(before).value, after)
  {
    var s0 := State([File(stamp, before)], None, map[]);
    assert IsRun(env, s0, [], s0);
    ReachesNext(env, s0, Stat(1));
    var s1 := Apply(env, s0, Stat(1));
    ReachesNext(env, s1, Look(1));
    var s2 := Apply(env, s1, Look(1));
    ReachesNext(env, s2, Read(1));
    var s3 := Apply(env, s2, Read(1));
    ReachesNext(env, s3, OwnWrite(2, File(stamp, after)));
    assert Overtaken(env, Apply(env, s3, OwnWrite(2, File(stamp, after))), stamp, env.parse(before).value, after);
  }

  // ... the writer invalidates, and then the load stores what it had parsed. A
  // load that begins after the writer returned answers with the previous content.
  lemma InvalidatedParseComesBack(env: Env, stamp: Stamp, before: string, after: string)
    requires env.parse(before).Some? && env.parse(after) != env.parse(before)
    ensures exists s, steps, end ::
      && Overtaken(env, s, stamp, env.parse(before).value, after)
      && Serves(env, Apply(env, s, Invalidate(2)), steps, end, 3, env.parse(before).value)
  {
    LoadIsOvertaken(env, stamp, before, after);
    var profile := env.parse(before).value;
    var s :| Overtaken(env, s, stamp, profile, after);
    var s1 := Apply(env, s, Invalidate(2));
    ReachesNext(env, s, Invalidate(2));
    ReachesNext(env, s1, Store(1));
    var s2 := Apply(env, s1, Store(1));
    ReachableInv(env, s2);
    StaleIsServed(env, s2, 3);
    var steps, end :| Serves(env, s2, steps, end, 3, profile);
    ServesAfter(env, s1, Store(1), steps, end, 3, profile);
  }

  // ------------------------------------------------------- a load on its own

  // The state's cached parse is the one the cache has under the path.
  predicate Caches(s: State, entries: map<string, Entry>, path: string) {
    (path in entries <==> s.entry.Some?) && (s.entry.Some? ==> entries[path] == s.entry.value.e)
  }

  ghost predicate Loads(env: Env, s: State, end: State, t: Tid, entries: map<string, Entry>, path: string)
    requires s.versions != []
  {
    && (exists steps :: IsRun(env, s, steps, end)) && PcOf(end, t).Answered?
    && PcOf(end, t).r == Answer(env, entries, path, Disk(s), Disk(s))
    && Caches(end, AfterLoad(env, entries, path, Disk(s), Disk(s)), path)
  }

  lemma FileLoadAlone(env: Env, s: State, steps: seq<Step>, s2: State, t: Tid, entries: map<string, Entry>,
      path: string)
    requires s.versions != [] && Disk(s).File? && IsRun(env, s, steps, s2) && Caches(s, entries, path)
    requires s2.versions == s.versions && s2.entry == s.entry
    requires if s.entry.Some? && s.entry.value.e.stamp == Disk(s).stamp
             then PcOf(s2, t) == Answered(Newest(s), Newest(s), Ok(Some(s.entry.value.e.profile)))
             else PcOf(s2, t) == Reading(Newest(s))
    ensures exists end :: Loads(env, s, end, t, entries, path)
  {
    if PcOf(s2, t).Answered? {
      assert Loads(env, s, s2, t, entries, path);
    } else {
      var s3 := Apply(env, s2, Read(t));
      RunSnoc(env, s, steps, s2, Read(t));
      if PcOf(s3, t).Storing? {
        RunSnoc(env, s, steps + [Read(t)], s3, Store(t));
        assert Loads(env, s, Apply(env, s3, Store(t)), t, entries, path);
      } else {
        assert Loads(env, s, s3, t, entries, path);
      }
    }
  }

  // The steps of a load that nobody interrupts are the cache's Load.
  lemma LoadAlone(env: Env, s: State, t: Tid, entries: map<string, Entry>, path: string)
    requires s.versions != [] && Free(PcOf(s, t)) && Caches(s, entries, path)
    ensures exists end :: Loads(env, s, end, t, entries, path)
  {
    var f := Disk(s);
    var s1 := Apply(env, s, Stat(t));
    assert IsRun(env, s, [], s);
    RunSnoc(env, s, [], s, Stat(t));
    if f.Absent? {
      RunSnoc(env, s, [] + [Stat(t)], s1, Drop(t));
      assert Loads(env, s, Apply(env, s1, Drop(t)), t, entries, path);
    } else if !f.File? {
      assert Loads(env, s, s1, t, entries, path);
    } else {
      RunSnoc(env, s, [] + [Stat(t)], s1, Look(t));
      FileLoadAlone(env, s, [] + [Stat(t)] + [Look(t)], Apply(env, s1, Look(t)), t, entries, path);
    }
  }

  // ------------------------------------------------- the file is what is written

  function WriteOf(step: Step): seq<File> {
    match step
    case OwnWrite(_, f) => [f]
    case ForeignWrite(f) => [f]
    case _ => []
  }

  // The contents a run writes, in order.
  function Written(steps: seq<Step>): seq<File> {
    if steps == [] then [] else WriteOf(steps[0]) + Written(steps[1..])
  }

  lemma StepWrites(env: Env, s: State, step: Step)
    requires Enabled(s, step)
    ensures Apply(env, s, step).versions == s.versions + WriteOf(step)
  {
  }

  // What is on disk is what was written last...
  lemma {:induction false} VersionsAreTheWrites(env: Env, s: State, steps: seq<Step>, end: State)
    requires s.versions != [] && IsRun(env, s, steps, end)
    ensures end.versions == s.versions + Written(steps)
    decreases |steps|
  {
    if steps != [] {
      StepWrites(env, s, steps[0]);
      VersionsAreTheWrites(env, Apply(env, s, steps[0]), steps[1..], end);
      Assoc(s.versions, WriteOf(steps[0]), Written(steps[1..]));
    }
  }

  // ... and anybody may write at any time, this process between its calls.
  lemma AnybodyMayWrite(s: State, f: File, t: Tid)
    requires s.versions != []
    ensures Enabled(s, ForeignWrite(f))
    ensures PcOf(s, t).Idle? || PcOf(s, t).Answered? ==> Enabled(s, OwnWrite(t, f)) && Enabled(s, Stat(t))
  {
  }

  // A load reads what is on disk when it reads, and what does not parse is an
  // error and not an empty overlay.
  lemma ReadSaysWhatIsThere(env: Env, s: State, t: Tid)
    requires Enabled(s, Read(t))
    ensures var pc := PcOf(Apply(env, s, Read(t)), t);
      && (pc.Answered? ==> Says(env, Disk(s), pc.r))
      && (pc.Storing? ==> Says(env, Disk(s), Ok(Some(pc.k.e.profile))))
  {
  }
}
