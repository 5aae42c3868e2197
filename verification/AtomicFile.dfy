/**
  Crash-atomic file replacement: writeAtomic against a file system that may
  lose everything not yet synced, with any number of writers to one destination
  and a crash possible between any two of their steps.

  A crash keeps the contents of synced inodes, leaves any bytes at all in the
  others, and reverts each directory entry independently to any value it has
  had since the directory was last synced. Any number of sweeps run beside the
  writers; each looks at the age of a staging entry and, if it is old, removes
  the name in a later step, whatever stands under it by then.
*/
module AtomicFile {
  import opened Common

  type Name = string
  type Ino = nat
  type Wid = nat
  type Vid = nat
  type Bytes = seq<bv8>
  type Dir = map<Name, Ino>

  // createTempAttempts.
  const ATTEMPTS := 10

  // StaleAge, in seconds.
  const STALE_AGE: nat := 24 * 60 * 60

  // ".base.suffix.tmp", the only shape of a staging file.
  function StagingName(dest: Name, suffix: string): (name: Name)
    ensures name != dest
  {
    var name := "." + dest + "." + suffix + ".tmp";
    assert |name| > |dest|;
    name
  }

  // A directory state a crash may still reveal, and which installation it
  // shows at the destination.
  datatype Snap = Snap(dir: Dir, shows: nat)

  // The files, which of them are synced and when each was last written; the
  // directory since its last sync; and the clock.
  datatype Disk = Disk(content: map<Ino, Bytes>, synced: set<Ino>, mtime: map<Ino, nat>, since: seq<Snap>, now: nat)

  // The staged file of one call.
  datatype Job = Job(name: Name, ino: Ino, data: Bytes)

  datatype Pc =
    | Idle
    | Creating(data: Bytes, tries: nat)
    | Filling(job: Job, n: nat)
    | Synced(job: Job)
    | Closed(job: Job)
    | Renamed(data: Bytes, at: nat)
    | Failing(job: Job)
    | Failed
    | Done(data: Bytes, at: nat, durable: bool)

  // `installs` is what the destination was first found to hold, followed by
  // what each rename meant to put there; a crash cannot go back behind `floor`.
  // `sweeps` has the suffix of the name each sweep under way is about to remove.
  datatype State = State(disk: Disk, pc: map<Wid, Pc>, sweeps: map<Vid, string>,
      installs: seq<Option<Bytes>>, floor: nat)

  datatype Step =
    | Begin(w: Wid, data: Bytes)
    | Create(w: Wid, suffix: string, ino: Ino)
    | CreateFails(w: Wid)
    | Fill(w: Wid, k: nat)
    | Sync(w: Wid)
    | Close(w: Wid)
    | Rename(w: Wid)
    | Fail(w: Wid)
    | Cleanup(w: Wid, ok: bool)
    | SyncDir(w: Wid, ok: bool)
    | Kill(w: Wid)
    | Wait(seconds: nat)
    | Look(v: Vid, suffix: string)
    | Remove(v: Vid, ok: bool)
    | Crash(dir: Dir, content: map<Ino, Bytes>, i: nat)

  function PcOf(s: State, w: Wid): Pc {
    if w in s.pc then s.pc[w] else Idle
  }

  function Now(d: Disk): Snap
    requires d.since != []
  {
    d.since[|d.since| - 1]
  }

  function Entry<K, V>(dir: map<K, V>, name: K): Option<V> {
    if name in dir then Some(dir[name]) else None
  }

  // What a reader opening the destination gets.
  function Read(d: Disk, dir: Dir, dest: Name): Option<Bytes> {
    match Entry(dir, dest)
    case None => None
    case Some(ino) => if ino in d.content then Some(d.content[ino]) else None
  }

  function View(s: State, dest: Name): Option<Bytes>
    requires s.disk.since != []
  {
    Read(s.disk, Now(s.disk).dir, dest)
  }

  // The directory changes; the destination goes on showing the same installation.
  function Redirect(d: Disk, dir: Dir): Disk
    requires d.since != []
  {
    d.(since := d.since + [Snap(dir, Now(d).shows)])
  }

  // The calls that hold a staged file.
  predicate HasJob(pc: Pc) {
    pc.Filling? || pc.Synced? || pc.Closed? || pc.Failing?
  }

  // SweepStale's rule: the entry is there and was last written before the cutoff.
  predicate Stale(d: Disk, dir: Dir, name: Name) {
    name in dir && dir[name] in d.mtime && d.mtime[dir[name]] + STALE_AGE < d.now
  }

  predicate Can(dest: Name, d: Disk, sweeps: map<Vid, string>, pc: Pc, step: Step) {
    && d.since != []
    && match step
       case Begin(_, _) => pc.Idle? || pc.Failed? || pc.Done?
       case Create(_, _, ino) => pc.Creating? && ino !in d.content
       case CreateFails(_) => pc.Creating?
       case Fill(_, k) => pc.Filling? && pc.n + k <= |pc.job.data| && pc.job.ino in d.content
       case Sync(_) => pc.Filling? && pc.n == |pc.job.data|
       case Close(_) => pc.Synced?
       case Rename(_) => pc.Closed? && pc.job.name in Now(d).dir
       case Fail(_) => pc.Filling? || pc.Synced? || pc.Closed?
       case Cleanup(_, _) => pc.Failing?
       case SyncDir(_, _) => pc.Renamed?
       case Kill(_) => true
       case Wait(_) => true
       case Look(v, suffix) => v !in sweeps && Stale(d, Now(d).dir, StagingName(dest, suffix))
       case Remove(v, _) => v in sweeps
       case Crash(_, _, _) => true
  }

  function NextPc(dest: Name, s: State, pc: Pc, step: Step): Pc
    requires Can(dest, s.disk, s.sweeps, pc, step)
  {
    match step
    case Begin(_, data) => Creating(data, 0)
    case Create(_, suffix, ino) =>
      var name := StagingName(dest, suffix);
      if name !in Now(s.disk).dir then Filling(Job(name, ino, pc.data), 0)
      else if pc.tries + 1 < ATTEMPTS then pc.(tries := pc.tries + 1)
      else Failed
    case CreateFails(_) => Failed
    case Fill(_, k) => pc.(n := pc.n + k)
    case Sync(_) => Synced(pc.job)
    case Close(_) => Closed(pc.job)
    case Rename(_) => Renamed(pc.job.data, |s.installs|)
    case Fail(_) => Failing(pc.job)
    case Cleanup(_, _) => Failed
    case SyncDir(_, ok) => Done(pc.data, pc.at, ok)
    case Kill(_) => Idle
    case _ => pc
  }

  function NextDisk(dest: Name, s: State, pc: Pc, step: Step): Disk
    requires Can(dest, s.disk, s.sweeps, pc, step)
  {
    var d := s.disk;
    var dir := Now(d).dir;
    match step
    case Create(_, suffix, ino) =>
      var name := StagingName(dest, suffix);
      if name in dir then d
      else Redirect(d.(content := d.content[ino := []], mtime := d.mtime[ino := d.now]), dir[name := ino])
    case Fill(_, k) =>
      var ino, chunk := pc.job.ino, pc.job.data[pc.n..pc.n + k];
      d.(content := d.content[ino := d.content[ino] + chunk], synced := d.synced - {ino},
         mtime := if k > 0 then d.mtime[ino := d.now] else d.mtime)
    case Sync(_) => d.(synced := d.synced + {pc.job.ino})
    case Rename(_) =>
      d.(since := d.since + [Snap(dir[dest := dir[pc.job.name]] - {pc.job.name}, |s.installs|)])
    case Cleanup(_, ok) => if ok then Redirect(d, dir - {pc.job.name}) else d
    case SyncDir(_, ok) => if ok then d.(since := [Now(d)]) else d
    case Wait(seconds) => d.(now := d.now + seconds)
    case Remove(v, ok) => if ok then Redirect(d, dir - {StagingName(dest, s.sweeps[v])}) else d
    case Crash(dir', content', i) =>
      if i < |d.since| then Disk(content', content'.Keys, d.mtime, [Snap(dir', d.since[i].shows)], d.now) else d
    case _ => d
  }

  function NextSweeps(sweeps: map<Vid, string>, step: Step): map<Vid, string> {
    match step
    case Look(v, suffix) => sweeps[v := suffix]
    case Remove(v, _) => sweeps - {v}
    case Crash(_, _, _) => map[]
    case _ => sweeps
  }

  // What a crash may leave behind: entry by entry, some state since the last
  // directory sync (the i-th one at the destination), and any bytes at all in
  // an inode that was not synced.
  ghost predicate CrashImage(dest: Name, d: Disk, dir: Dir, content: map<Ino, Bytes>, i: nat) {
    && i < |d.since| && Entry(dir, dest) == Entry(d.since[i].dir, dest)
    && (forall name :: exists j :: 0 <= j < |d.since| && Entry(dir, name) == Entry(d.since[j].dir, name))
    && content.Keys == d.content.Keys
    && (forall ino :: ino in d.synced && ino in content ==> content[ino] == d.content[ino])
  }

  // No running call is staging under this name.
  ghost predicate Unused(s: State, name: Name) {
    forall w :: HasJob(PcOf(s, w)) ==> PcOf(s, w).job.name != name
  }

  // A removal that only collects what no running call is still staging.
  ghost predicate Spares(dest: Name, s: State, step: Step) {
    step.Remove? && step.ok && step.v in s.sweeps ==> Unused(s, StagingName(dest, s.sweeps[step.v]))
  }

  predicate InTime(d: Disk, ino: Ino) {
    ino in d.mtime ==> d.now <= d.mtime[ino] + STALE_AGE
  }

  // No running call has left its staging file untouched for longer than the age
  // a sweep asks for.
  ghost predicate Prompt(s: State) {
    forall w :: HasJob(PcOf(s, w)) ==> InTime(s.disk, PcOf(s, w).job.ino)
  }

  predicate OfWriter(step: Step) {
    !step.Look? && !step.Remove? && !step.Crash? && !step.Wait?
  }

  function Actor(s: State, step: Step): Pc {
    if OfWriter(step) then PcOf(s, step.w) else Idle
  }

  ghost predicate Enabled(dest: Name, s: State, step: Step) {
    && Can(dest, s.disk, s.sweeps, Actor(s, step), step)
    && (step.Crash? ==> CrashImage(dest, s.disk, step.dir, step.content, step.i))
  }

  ghost function Apply(dest: Name, s: State, step: Step): State
    requires Enabled(dest, s, step)
  {
    var pc := Actor(s, step);
    State(NextDisk(dest, s, pc, step),
          if step.Crash? then map[] else if OfWriter(step) then s.pc[step.w := NextPc(dest, s, pc, step)] else s.pc,
          NextSweeps(s.sweeps, step),
          if step.Rename? then s.installs + [Some(pc.job.data)] else s.installs,
          if step.SyncDir? && step.ok then Now(s.disk).shows else s.floor)
  }

  // A file system at rest: everything on it is durable.
  ghost predicate IsInitial(dest: Name, s: State) {
    && |s.disk.since| == 1 && Now(s.disk).shows == 0
    && s.disk.synced == s.disk.content.Keys
    && (forall name :: name in Now(s.disk).dir ==> Now(s.disk).dir[name] in s.disk.content)
    && s.pc == map[] && s.sweeps == map[] && s.installs == [View(s, dest)] && s.floor == 0
  }

  // What a run is known to keep to. In a timely one no call has left its file
  // untouched for too long when a sweep looks. In a careful one, besides, no call
  // draws a name between a sweep's look at it and its removal. In an orderly one,
  // instead, no sweep looks while another has a name to remove.
  datatype Care = Lax | Timely | Careful | Orderly

  ghost predicate Heeds(dest: Name, care: Care, s: State, step: Step)
    requires s.disk.since != []
  {
    && (care != Lax && step.Look? ==> Prompt(s))
    && (care == Careful && step.Create? && StagingName(dest, step.suffix) !in Now(s.disk).dir ==>
          step.suffix !in s.sweeps.Values)
    && (care == Orderly && step.Look? ==> s.sweeps == map[])
  }

  ghost predicate IsRun(dest: Name, s: State, steps: seq<Step>, end: State, care: Care)
    decreases |steps|
  {
    if steps == [] then end == s
    else
      && Enabled(dest, s, steps[0]) && Heeds(dest, care, s, steps[0])
      && IsRun(dest, Apply(dest, s, steps[0]), steps[1..], end, care)
  }

  // --------------------------------------------------------------- invariant

  // What the destination shows in one directory state is a whole, durable
  // installation no older than the floor.
  ghost predicate Settled(dest: Name, d: Disk, installs: seq<Option<Bytes>>, floor: nat, snap: Snap) {
    && floor <= snap.shows < |installs|
    && Read(d, snap.dir, dest) == installs[snap.shows]
    && (dest in snap.dir ==> snap.dir[dest] in d.content && snap.dir[dest] in d.synced)
  }

  // A staged file is its call's own: named by no one else, never the
  // destination's inode, holding exactly what has been written so far.
  ghost predicate Staged(dest: Name, d: Disk, pc: Pc)
    requires d.since != []
  {
    HasJob(pc) ==>
      && pc.job.name != dest && Entry(Now(d).dir, pc.job.name) == Some(pc.job.ino)
      && pc.job.ino in d.content
      && (forall k :: 0 <= k < |d.since| ==> Entry(d.since[k].dir, dest) != Some(pc.job.ino))
      && (pc.Filling? ==> pc.n <= |pc.job.data| && d.content[pc.job.ino] == pc.job.data[..pc.n])
      && (pc.Synced? || pc.Closed? ==> d.content[pc.job.ino] == pc.job.data && pc.job.ino in d.synced)
  }

  predicate Apart(a: Pc, b: Pc) {
    HasJob(a) && HasJob(b) ==> a.job.name != b.job.name && a.job.ino != b.job.ino
  }

  // A call past its rename knows which installation it made.
  predicate Installed(s: State, pc: Pc)
    requires s.disk.since != []
  {
    && (pc.Renamed? ==> pc.at <= Now(s.disk).shows && pc.at < |s.installs| && s.installs[pc.at] == Some(pc.data))
    && (pc.Done? ==> pc.at < |s.installs| && s.installs[pc.at] == Some(pc.data))
    && (pc.Done? && pc.durable ==> pc.at <= s.floor)
  }

  ghost predicate Globals(dest: Name, s: State) {
    && s.disk.since != [] && s.disk.synced <= s.disk.content.Keys
    && (forall k :: 0 <= k < |s.disk.since| ==> Settled(dest, s.disk, s.installs, s.floor, s.disk.since[k]))
  }

  ghost predicate Thread(dest: Name, s: State, w: Wid)
    requires s.disk.since != []
  {
    Staged(dest, s.disk, PcOf(s, w)) && Installed(s, PcOf(s, w))
  }

  ghost predicate Whole(dest: Name, s: State) {
    && Globals(dest, s)
    && (forall w: Wid {:trigger PcOf(s, w)} :: Thread(dest, s, w))
    && (forall u: Wid, v: Wid {:trigger PcOf(s, u), PcOf(s, v)} :: u != v ==> Apart(PcOf(s, u), PcOf(s, v)))
  }

  lemma CrashKeepsGlobals(dest: Name, s: State, step: Step)
    requires Globals(dest, s) && Enabled(dest, s, step) && step.Crash?
    ensures Globals(dest, Apply(dest, s, step))
  {
    assert Settled(dest, s.disk, s.installs, s.floor, s.disk.since[step.i]);
  }

  lemma RenameKeepsGlobals(dest: Name, s: State, step: Step)
    requires Globals(dest, s) && Enabled(dest, s, step) && step.Rename? && Staged(dest, s.disk, PcOf(s, step.w))
    ensures Globals(dest, Apply(dest, s, step))
  {
    var s' := Apply(dest, s, step);
    forall k | 0 <= k < |s'.disk.since| ensures Settled(dest, s'.disk, s'.installs, s'.floor, s'.disk.since[k]) {
      assert k < |s.disk.since| ==> Settled(dest, s.disk, s.installs, s.floor, s.disk.since[k]);
    }
  }

  // A name drawn or removed is not the destination's.
  lemma RedirectKeepsGlobals(dest: Name, s: State, step: Step)
    requires Globals(dest, s) && Enabled(dest, s, step) && Staged(dest, s.disk, Actor(s, step))
    requires step.Create? || step.Cleanup? || step.Remove?
    ensures Globals(dest, Apply(dest, s, step))
  {
    var s' := Apply(dest, s, step);
    assert Settled(dest, s.disk, s.installs, s.floor, Now(s.disk));
    forall k | 0 <= k < |s'.disk.since| ensures Settled(dest, s'.disk, s'.installs, s'.floor, s'.disk.since[k]) {
      assert k < |s.disk.since| ==> Settled(dest, s.disk, s.installs, s.floor, s.disk.since[k]);
    }
  }

  lemma KeepsGlobals(dest: Name, s: State, step: Step)
    requires Globals(dest, s) && Enabled(dest, s, step) && Staged(dest, s.disk, Actor(s, step))
    ensures Globals(dest, Apply(dest, s, step))
  {
    if step.Crash? {
      CrashKeepsGlobals(dest, s, step);
    } else if step.Rename? {
      RenameKeepsGlobals(dest, s, step);
    } else if step.Create? || step.Cleanup? || step.Remove? {
      RedirectKeepsGlobals(dest, s, step);
    } else {
      var s' := Apply(dest, s, step);
      assert Settled(dest, s.disk, s.installs, s.floor, Now(s.disk));
      forall k | 0 <= k < |s'.disk.since| ensures Settled(dest, s'.disk, s'.installs, s'.floor, s'.disk.since[k]) {
        assert k < |s.disk.since| ==> Settled(dest, s.disk, s.installs, s.floor, s.disk.since[k]);
      }
    }
  }

  lemma MoverStaged(dest: Name, s: State, step: Step)
    requires Globals(dest, s) && Enabled(dest, s, step) && OfWriter(step) && Staged(dest, s.disk, PcOf(s, step.w))
    ensures Staged(dest, Apply(dest, s, step).disk, PcOf(Apply(dest, s, step), step.w))
  {
    assert forall k :: 0 <= k < |s.disk.since| ==> Settled(dest, s.disk, s.installs, s.floor, s.disk.since[k]);
  }

  lemma MoverKeeps(dest: Name, s: State, step: Step)
    requires Globals(dest, s) && Enabled(dest, s, step) && OfWriter(step)
    requires Staged(dest, s.disk, PcOf(s, step.w)) && Installed(s, PcOf(s, step.w))
    ensures Thread(dest, Apply(dest, s, step), step.w)
  {
    MoverStaged(dest, s, step);
    assert Settled(dest, s.disk, s.installs, s.floor, Now(s.disk));
  }

  lemma OtherStaged(dest: Name, s: State, step: Step, w: Wid)
    requires Globals(dest, s) && Enabled(dest, s, step) && Spares(dest, s, step) && !step.Crash?
    requires OfWriter(step) ==> w != step.w && Apart(PcOf(s, w), PcOf(s, step.w))
    requires Staged(dest, s.disk, PcOf(s, w)) && Staged(dest, s.disk, Actor(s, step))
    ensures Staged(dest, Apply(dest, s, step).disk, PcOf(s, w))
  {
  }

  lemma OtherKeeps(dest: Name, s: State, step: Step, w: Wid)
    requires Globals(dest, s) && Enabled(dest, s, step) && Spares(dest, s, step) && !step.Crash?
    requires OfWriter(step) ==> w != step.w && Apart(PcOf(s, w), PcOf(s, step.w))
    requires Staged(dest, s.disk, PcOf(s, w)) && Installed(s, PcOf(s, w))
    requires Staged(dest, s.disk, Actor(s, step))
    ensures Thread(dest, Apply(dest, s, step), w)
  {
    OtherStaged(dest, s, step, w);
    assert Settled(dest, s.disk, s.installs, s.floor, Now(s.disk));
  }

  lemma KeepsApart(dest: Name, s: State, step: Step, w: Wid)
    requires Globals(dest, s) && Enabled(dest, s, step) && OfWriter(step) && w != step.w
    requires Staged(dest, s.disk, PcOf(s, w)) && Apart(PcOf(s, step.w), PcOf(s, w))
    ensures Apart(PcOf(Apply(dest, s, step), step.w), PcOf(s, w))
  {
  }

  lemma SparingKeepsWhole(dest: Name, s: State, step: Step)
    requires Whole(dest, s) && Enabled(dest, s, step) && Spares(dest, s, step)
    ensures Whole(dest, Apply(dest, s, step))
  {
    var s' := Apply(dest, s, step);
    KeepsGlobals(dest, s, step);
    forall w: Wid ensures Thread(dest, s', w) {
      if step.Crash? {
      } else if OfWriter(step) && w == step.w {
        MoverKeeps(dest, s, step);
      } else {
        OtherKeeps(dest, s, step, w);
      }
    }
    forall u: Wid, v: Wid | u != v ensures Apart(PcOf(s', u), PcOf(s', v)) {
      if step.Crash? {
      } else if OfWriter(step) && u == step.w {
        KeepsApart(dest, s, step, v);
      } else if OfWriter(step) && v == step.w {
        KeepsApart(dest, s, step, u);
      } else {
        assert Apart(PcOf(s, u), PcOf(s, v));
      }
    }
  }

  // No sweep is about to remove a running call's name.
  ghost predicate Unclaimed(dest: Name, s: State) {
    forall v :: v in s.sweeps ==> Unused(s, StagingName(dest, s.sweeps[v]))
  }

  ghost predicate Inv(dest: Name, s: State) {
    Whole(dest, s) && Unclaimed(dest, s)
  }

  // The age rule does its work when a sweep looks: it finds no running call's
  // file that has not idled.
  lemma LookFindsNoRunningCall(dest: Name, s: State, v: Vid, suffix: string)
    requires Whole(dest, s) && Prompt(s) && Enabled(dest, s, Look(v, suffix))
    ensures Unused(s, StagingName(dest, suffix))
  {
    forall w | HasJob(PcOf(s, w)) ensures PcOf(s, w).job.name != StagingName(dest, suffix) {
      assert Thread(dest, s, w) && InTime(s.disk, PcOf(s, w).job.ino);
    }
  }

  lemma SuffixOf(dest: Name, a: string, b: string)
    requires StagingName(dest, a) == StagingName(dest, b)
    ensures a == b
  {
    var x, y, n := StagingName(dest, a), StagingName(dest, b), |dest| + 2;
    assert x[n..|x| - 4] == a && y[n..|y| - 4] == b;
  }

  // A name no call stages under stays so unless a call draws it.
  lemma StaysUnused(dest: Name, s: State, step: Step, suffix: string)
    requires Enabled(dest, s, step) && Unused(s, StagingName(dest, suffix))
    requires step.Create? && StagingName(dest, step.suffix) !in Now(s.disk).dir ==> step.suffix != suffix
    ensures Unused(Apply(dest, s, step), StagingName(dest, suffix))
  {
    var s' := Apply(dest, s, step);
    forall w | HasJob(PcOf(s', w)) ensures PcOf(s', w).job.name != StagingName(dest, suffix) {
      if step.Create? && w == step.w {
        if step.suffix != suffix && PcOf(s', w).job.name == StagingName(dest, suffix) {
          SuffixOf(dest, step.suffix, suffix);
        }
      } else {
        assert HasJob(PcOf(s, w)) && PcOf(s, w).job == PcOf(s', w).job;
      }
    }
  }

  // So, while no call idles beyond the age and none draws a name between a
  // sweep's look at it and its removal, every removal spares the running calls.
  lemma PromptCallsAreSpared(dest: Name, s: State, step: Step)
    requires Inv(dest, s) && Enabled(dest, s, step) && Heeds(dest, Careful, s, step)
    ensures Spares(dest, s, step) && Unclaimed(dest, Apply(dest, s, step))
  {
    var s' := Apply(dest, s, step);
    forall v | v in s'.sweeps ensures Unused(s', StagingName(dest, s'.sweeps[v])) {
      if step.Look? && v == step.v {
        LookFindsNoRunningCall(dest, s, v, step.suffix);
      } else {
        assert v in s.sweeps && s.sweeps[v] == s'.sweeps[v] && s.sweeps[v] in s.sweeps.Values;
      }
      StaysUnused(dest, s, step, s'.sweeps[v]);
    }
  }

  // Every step of a careful run keeps the invariant, looks and removals of any
  // number of sweeps included.
  lemma StepKeepsInv(dest: Name, s: State, step: Step)
    requires Inv(dest, s) && Enabled(dest, s, step) && Heeds(dest, Careful, s, step)
    ensures Inv(dest, Apply(dest, s, step))
  {
    PromptCallsAreSpared(dest, s, step);
    SparingKeepsWhole(dest, s, step);
  }

  // A removal keeps it exactly when it spares the running calls.
  lemma SweepKeepsInvIff(dest: Name, s: State, v: Vid)
    requires Whole(dest, s) && Enabled(dest, s, Remove(v, true))
    ensures Whole(dest, Apply(dest, s, Remove(v, true))) <==> Spares(dest, s, Remove(v, true))
  {
    var s' := Apply(dest, s, Remove(v, true));
    if Spares(dest, s, Remove(v, true)) {
      SparingKeepsWhole(dest, s, Remove(v, true));
    } else {
      var w :| HasJob(PcOf(s, w)) && PcOf(s, w).job.name == StagingName(dest, s.sweeps[v]);
      assert PcOf(s', w) == PcOf(s, w) && !Staged(dest, s'.disk, PcOf(s', w));
    }
  }

  lemma {:induction false} RunKeepsInv(dest: Name, s: State, steps: seq<Step>, end: State)
    requires Inv(dest, s) && IsRun(dest, s, steps, end, Careful)
    ensures Inv(dest, end) && s.installs <= end.installs && s.floor <= end.floor
    decreases |steps|
  {
    if steps != [] {
      StepKeepsInv(dest, s, steps[0]);
      assert Settled(dest, s.disk, s.installs, s.floor, Now(s.disk));
      RunKeepsInv(dest, Apply(dest, s, steps[0]), steps[1..], end);
    }
  }

  // The contents the calls of a run were asked to write.
  function Begun(steps: seq<Step>): set<Bytes> {
    if steps == [] then {}
    else (if steps[0].Begin? then {steps[0].data} else {}) + Begun(steps[1..])
  }

  // Every content a call stages or has installed is one a call was given.
  function DataOf(pc: Pc): set<Bytes> {
    if pc.Creating? then {pc.data} else if HasJob(pc) then {pc.job.data} else {}
  }

  ghost predicate Sourced(s: State, first: seq<Option<Bytes>>, known: set<Bytes>) {
    && (forall w: Wid {:trigger PcOf(s, w)} :: DataOf(PcOf(s, w)) <= known)
    && (forall k :: 0 <= k < |s.installs| ==>
          s.installs[k] in first || (s.installs[k].Some? && s.installs[k].value in known))
  }

  lemma StepSourced(dest: Name, s: State, step: Step, first: seq<Option<Bytes>>, known: set<Bytes>)
    requires Enabled(dest, s, step) && Sourced(s, first, known)
    ensures Sourced(Apply(dest, s, step), first, known + if step.Begin? then {step.data} else {})
  {
    var s' := Apply(dest, s, step);
    forall w: Wid ensures DataOf(PcOf(s', w)) <= known + if step.Begin? then {step.data} else {} {
      assert DataOf(PcOf(s, w)) <= known;
    }
  }

  lemma {:induction false} RunSourced(dest: Name, s: State, steps: seq<Step>, end: State, care: Care,
      first: seq<Option<Bytes>>, known: set<Bytes>)
    requires IsRun(dest, s, steps, end, care) && Sourced(s, first, known)
    ensures Sourced(end, first, known + Begun(steps))
    decreases |steps|
  {
    if steps == [] {
      assert known + Begun(steps) == known;
    } else {
      var known' := known + if steps[0].Begin? then {steps[0].data} else {};
      StepSourced(dest, s, steps[0], first, known);
      RunSourced(dest, Apply(dest, s, steps[0]), steps[1..], end, care, first, known');
      assert known' + Begun(steps[1..]) == known + Begun(steps);
    }
  }

  lemma InitialInv(dest: Name, s: State)
    requires IsInitial(dest, s)
    ensures Inv(dest, s)
  {
    assert Now(s.disk) == s.disk.since[0];
    assert Settled(dest, s.disk, s.installs, s.floor, s.disk.since[0]);
    forall w: Wid ensures Thread(dest, s, w) { assert PcOf(s, w) == Idle; }
  }

  // ---------------------------------------------------------------- theorems

  // Crash atomicity. After any run, crashes included, in which no call had idled
  // for longer than a day when a sweep looked, and none drew a name between a
  // sweep's look at it and its removal, a reader of the destination gets exactly
  // what was there at the start or exactly what some call was asked to write;
  // never a mixture, never a prefix.
  lemma OldOrNewNeverTorn(dest: Name, s0: State, steps: seq<Step>, s: State)
    requires IsInitial(dest, s0) && IsRun(dest, s0, steps, s, Careful)
    ensures s.disk.since != []
    ensures View(s, dest) == View(s0, dest) || (View(s, dest).Some? && View(s, dest).value in Begun(steps))
  {
    InitialInv(dest, s0);
    RunKeepsInv(dest, s0, steps, s);
    assert Sourced(s0, s0.installs, {});
    RunSourced(dest, s0, steps, s, Careful, s0.installs, {});
    assert Settled(dest, s.disk, s.installs, s.floor, Now(s.disk));
  }

  // Durability. Once a call has renamed its file and synced the directory, no
  // crash brings back anything older than its content.
  lemma SyncedRenameIsDurable(dest: Name, s: State, w: Wid, steps: seq<Step>, end: State)
    requires Inv(dest, s) && PcOf(s, w).Done? && PcOf(s, w).durable && IsRun(dest, s, steps, end, Careful)
    ensures var at := PcOf(s, w).at;
      && at < |end.installs| && end.installs[at] == Some(PcOf(s, w).data)
      && end.disk.since != [] && exists j :: at <= j < |end.installs| && View(end, dest) == end.installs[j]
  {
    RunKeepsInv(dest, s, steps, end);
    assert Thread(dest, s, w);
    assert Settled(dest, end.disk, end.installs, end.floor, Now(end.disk));
  }

  // Nothing but a rename or a crash changes what a reader gets...
  lemma OnlyRenameShows(dest: Name, s: State, step: Step)
    requires Whole(dest, s) && Enabled(dest, s, step) && !step.Crash?
    ensures var s' := Apply(dest, s, step);
      && s'.disk.since != []
      && View(s', dest) == if step.Rename? then Some(PcOf(s, step.w).job.data) else View(s, dest)
  {
    assert Settled(dest, s.disk, s.installs, s.floor, Now(s.disk));
    if OfWriter(step) {
      assert Thread(dest, s, step.w);
    }
  }

  // Nothing that changes what a reader gets.
  predicate Quiet(steps: seq<Step>) {
    steps == [] || (!steps[0].Rename? && !steps[0].Crash? && Quiet(steps[1..]))
  }

  lemma {:induction false} NoRenameNoChange(dest: Name, s: State, steps: seq<Step>, end: State)
    requires Inv(dest, s) && IsRun(dest, s, steps, end, Careful)
    requires Quiet(steps)
    ensures end.disk.since != [] && View(end, dest) == View(s, dest)
    decreases |steps|
  {
    if steps != [] {
      StepKeepsInv(dest, s, steps[0]);
      OnlyRenameShows(dest, s, steps[0]);
      NoRenameNoChange(dest, Apply(dest, s, steps[0]), steps[1..], end);
    }
  }

  // A call that is before its rename.
  predicate Undecided(pc: Pc) {
    pc.Creating? || HasJob(pc) || pc.Failed?
  }

  // There is no crash, and w's call is neither begun again nor killed.
  predicate SameCall(steps: seq<Step>, w: Wid) {
    steps == [] ||
    (&& !steps[0].Crash? && (OfWriter(steps[0]) && steps[0].w == w ==> !steps[0].Begin? && !steps[0].Kill?)
     && SameCall(steps[1..], w))
  }

  // No other call renames.
  predicate OnlyRenames(steps: seq<Step>, w: Wid) {
    steps == [] || ((steps[0].Rename? ==> steps[0].w == w) && OnlyRenames(steps[1..], w))
  }

  lemma {:induction false} FailureIsQuiet(steps: seq<Step>, w: Wid)
    requires SameCall(steps, w) && OnlyRenames(steps, w) && forall i :: 0 <= i < |steps| ==> steps[i] != Rename(w)
    ensures Quiet(steps)
    decreases |steps|
  {
    if steps != [] {
      assert forall i :: 0 <= i < |steps[1..]| ==> steps[1..][i] == steps[i + 1];
      FailureIsQuiet(steps[1..], w);
    }
  }

  // ... and a call that ends in an error has made none.
  lemma {:induction false} FailedCallNeverRenamed(dest: Name, s: State, w: Wid, steps: seq<Step>, end: State,
      care: Care)
    requires IsRun(dest, s, steps, end, care) && PcOf(end, w).Failed?
    requires SameCall(steps, w)
    ensures Undecided(PcOf(s, w)) && forall i :: 0 <= i < |steps| ==> steps[i] != Rename(w)
    decreases |steps|
  {
    if steps != [] {
      FailedCallNeverRenamed(dest, Apply(dest, s, steps[0]), w, steps[1..], end, care);
      forall i | 0 <= i < |steps| ensures steps[i] != Rename(w) {
        if i > 0 { assert steps[i] == steps[1..][i - 1]; }
      }
    }
  }

  // So an error return leaves the destination untouched: from the start of a
  // call that fails to its end, a reader sees no change of the call's making.
  lemma ErrorLeavesDestinationUntouched(dest: Name, s: State, w: Wid, steps: seq<Step>, end: State)
    requires Inv(dest, s) && IsRun(dest, s, steps, end, Careful) && PcOf(end, w).Failed?
    requires SameCall(steps, w) && OnlyRenames(steps, w)
    ensures end.disk.since != [] && View(end, dest) == View(s, dest)
  {
    FailedCallNeverRenamed(dest, s, w, steps, end, Careful);
    FailureIsQuiet(steps, w);
    NoRenameNoChange(dest, s, steps, end);
  }

  // A successful call is read back until another rename or a crash.
  lemma SuccessIsReadBack(dest: Name, s: State, w: Wid, steps: seq<Step>, end: State)
    requires Inv(dest, s) && Enabled(dest, s, Rename(w))
    requires IsRun(dest, Apply(dest, s, Rename(w)), steps, end, Careful)
    requires Quiet(steps)
    ensures end.disk.since != [] && View(end, dest) == Some(PcOf(s, w).job.data)
  {
    StepKeepsInv(dest, s, Rename(w));
    OnlyRenameShows(dest, s, Rename(w));
    NoRenameNoChange(dest, Apply(dest, s, Rename(w)), steps, end);
  }

  // ---------------------------------------------------- one sweep at a time

  // The name a sweep has looked at is still there, and at most one has looked.
  ghost predicate Pinned(dest: Name, s: State)
    requires s.disk.since != []
  {
    && (forall v :: v in s.sweeps ==> StagingName(dest, s.sweeps[v]) in Now(s.disk).dir)
    && forall u, v :: u in s.sweeps && v in s.sweeps ==> u == v
  }

  // While only one sweep at a time has a name to remove, nobody else frees that
  // name, so no call can draw it: the run is a careful one.
  lemma OrderlyStepIsCareful(dest: Name, s: State, step: Step)
    requires Inv(dest, s) && Pinned(dest, s) && Enabled(dest, s, step) && Heeds(dest, Orderly, s, step)
    ensures Heeds(dest, Careful, s, step)
    ensures var s' := Apply(dest, s, step); s'.disk.since != [] && Pinned(dest, s')
  {
    var s' := Apply(dest, s, step);
    if OfWriter(step) { assert Thread(dest, s, step.w); }
    forall v | v in s'.sweeps ensures StagingName(dest, s'.sweeps[v]) in Now(s'.disk).dir {
      if v in s.sweeps {
        assert Unused(s, StagingName(dest, s.sweeps[v]));
        if OfWriter(step) && HasJob(PcOf(s, step.w)) {
          assert PcOf(s, step.w).job.name != StagingName(dest, s.sweeps[v]);
        }
      }
    }
  }

  lemma {:induction false} OrderlyRunIsCareful(dest: Name, s: State, steps: seq<Step>, end: State)
    requires Inv(dest, s) && Pinned(dest, s) && IsRun(dest, s, steps, end, Orderly)
    ensures IsRun(dest, s, steps, end, Careful)
    decreases |steps|
  {
    if steps != [] {
      OrderlyStepIsCareful(dest, s, steps[0]);
      StepKeepsInv(dest, s, steps[0]);
      OrderlyRunIsCareful(dest, Apply(dest, s, steps[0]), steps[1..], end);
    }
  }

  // So crash atomicity holds when no call idles beyond the age before a look and
  // sweeps come one at a time.
  lemma OneSweepAtATimeNeverTears(dest: Name, s0: State, steps: seq<Step>, s: State)
    requires IsInitial(dest, s0) && IsRun(dest, s0, steps, s, Orderly)
    ensures s.disk.since != []
    ensures View(s, dest) == View(s0, dest) || (View(s, dest).Some? && View(s, dest).value in Begun(steps))
  {
    InitialInv(dest, s0);
    OrderlyRunIsCareful(dest, s0, steps, s);
    OldOrNewNeverTorn(dest, s0, steps, s);
  }

  // ---------------------------------------------------- what calls leave behind

  // Every staging file of the destination is one a running call is filling.
  ghost predicate NoLitter(dest: Name, s: State)
    requires s.disk.since != []
  {
    forall suffix :: StagingName(dest, suffix) in Now(s.disk).dir ==> !Unused(s, StagingName(dest, suffix))
  }

  // No process is killed, and a call that gives up can remove its file.
  predicate Tidy(step: Step) {
    !step.Crash? && !step.Kill? && (step.Cleanup? ==> step.ok)
  }

  lemma StepKeepsNoLitter(dest: Name, s: State, step: Step)
    requires Whole(dest, s) && NoLitter(dest, s) && Enabled(dest, s, step) && Tidy(step)
    ensures Apply(dest, s, step).disk.since != [] && NoLitter(dest, Apply(dest, s, step))
  {
    var s' := Apply(dest, s, step);
    forall suffix | StagingName(dest, suffix) in Now(s'.disk).dir ensures !Unused(s', StagingName(dest, suffix)) {
      var name := StagingName(dest, suffix);
      if name in Now(s.disk).dir {
        var w :| HasJob(PcOf(s, w)) && PcOf(s, w).job.name == name;
        assert HasJob(PcOf(s', w)) && PcOf(s', w).job.name == name;
      } else {
        assert step.Create? && HasJob(PcOf(s', step.w)) && PcOf(s', step.w).job.name == name;
      }
    }
  }

  // A destination without leftovers stays so: when no call is running any more,
  // after success as after failure, no staging file of it is there.
  lemma {:induction false} CallsLeaveNoLitter(dest: Name, s: State, steps: seq<Step>, end: State)
    requires Inv(dest, s) && NoLitter(dest, s) && IsRun(dest, s, steps, end, Careful)
    requires forall i :: 0 <= i < |steps| ==> Tidy(steps[i])
    ensures end.disk.since != [] && NoLitter(dest, end)
    ensures (forall w :: !HasJob(PcOf(end, w))) ==> forall suffix :: StagingName(dest, suffix) !in Now(end.disk).dir
    decreases |steps|
  {
    if steps != [] {
      StepKeepsInv(dest, s, steps[0]);
      StepKeepsNoLitter(dest, s, steps[0]);
      assert forall i :: 0 <= i < |steps[1..]| ==> steps[1..][i] == steps[i + 1];
      CallsLeaveNoLitter(dest, Apply(dest, s, steps[0]), steps[1..], end);
    }
  }

  // ---------------------------------------------------- how a call may go

  // A drawn name that is free becomes an empty file of the call's own; a taken one
  // changes nothing, and the call draws again up to nine times and then gives up.
  lemma DrawGoes(dest: Name, s: State, w: Wid, suffix: string, ino: Ino)
    requires Enabled(dest, s, Create(w, suffix, ino))
    ensures var s', pc, name := Apply(dest, s, Create(w, suffix, ino)), PcOf(s, w), StagingName(dest, suffix);
      && s'.disk.since != []
      && (name !in Now(s.disk).dir ==>
            && PcOf(s', w) == Filling(Job(name, ino, pc.data), 0) && Now(s'.disk).dir == Now(s.disk).dir[name := ino]
            && s'.disk.content == s.disk.content[ino := []] && ino !in s.disk.content)
      && (name in Now(s.disk).dir ==>
            s'.disk == s.disk && PcOf(s', w) == if pc.tries < 9 then Creating(pc.data, pc.tries + 1) else Failed)
  {
  }

  // How often the call has drawn a name.
  function Draws(steps: seq<Step>, w: Wid): nat {
    if steps == [] then 0 else (if steps[0].Create? && steps[0].w == w then 1 else 0) + Draws(steps[1..], w)
  }

  // A call draws at most ten names.
  lemma {:induction false} TenNamesAtMost(dest: Name, s: State, w: Wid, steps: seq<Step>, end: State, care: Care)
    requires IsRun(dest, s, steps, end, care) && SameCall(steps, w)
    requires PcOf(s, w).Creating? ==> PcOf(s, w).tries < ATTEMPTS
    ensures Draws(steps, w) <= if PcOf(s, w).Creating? then ATTEMPTS - PcOf(s, w).tries else 0
    ensures PcOf(end, w).Creating? ==> PcOf(s, w).Creating? && PcOf(end, w).tries == PcOf(s, w).tries + Draws(steps, w)
    decreases |steps|
  {
    if steps != [] { TenNamesAtMost(dest, Apply(dest, s, steps[0]), w, steps[1..], end, care); }
  }

  // The step may be taken, and leaves thread w here and the disk as it was.
  ghost predicate MayJust(dest: Name, s: State, step: Step, w: Wid, pc: Pc) {
    Enabled(dest, s, step) && PcOf(Apply(dest, s, step), w) == pc && Apply(dest, s, step).disk == s.disk
  }

  // Before its rename a call may fail at any step, and then may be unable to remove
  // its file; the directory sync may fail; and its process may be killed at any
  // moment. None of it changes the disk, so nothing becomes durable by it.
  lemma CallsMayStopAnywhere(dest: Name, s: State, w: Wid)
    requires s.disk.since != []
    ensures var pc := PcOf(s, w);
      && MayJust(dest, s, Kill(w), w, Idle)
      && (HasJob(pc) && !pc.Failing? ==> MayJust(dest, s, Fail(w), w, Failing(pc.job)))
      && (pc.Failing? ==> MayJust(dest, s, Cleanup(w, false), w, Failed) && Enabled(dest, s, Cleanup(w, true)))
      && (pc.Creating? ==> MayJust(dest, s, CreateFails(w), w, Failed))
      && (pc.Renamed? ==> MayJust(dest, s, SyncDir(w, false), w, Done(pc.data, pc.at, false)))
  {
  }

  // A sweep that looked at a name may drop it.
  lemma SweepsMayStop(dest: Name, s: State, v: Vid)
    requires s.disk.since != [] && v in s.sweeps
    ensures MayJust(dest, s, Remove(v, false), 0, PcOf(s, 0)) && Enabled(dest, s, Remove(v, true))
  {
  }

  // An entry of the directory as it was in an earlier state.
  function Reverted(dir: Dir, earlier: Dir, name: Name): Dir {
    if name in earlier then dir[name := earlier[name]] else dir - {name}
  }

  // A crash may leave any bytes in a file that is not synced, and any entry as it
  // was at any moment since the directory was last synced, the others as they are;
  // the destination's is then what shows.
  lemma CrashMayLose(dest: Name, s: State, ino: Ino, bytes: Bytes, name: Name, j: nat)
    requires s.disk.since != [] && ino in s.disk.content && ino !in s.disk.synced && j < |s.disk.since|
    ensures var dir := Reverted(Now(s.disk).dir, s.disk.since[j].dir, name);
      var content, i := s.disk.content[ino := bytes], if name == dest then j else |s.disk.since| - 1;
      && Enabled(dest, s, Crash(dir, content, i))
      && var s' := Apply(dest, s, Crash(dir, content, i));
         s'.disk.since == [Snap(dir, s.disk.since[i].shows)] && s'.disk.content == content && s'.pc == map[]
  {
    var d := s.disk;
    var dir := Reverted(Now(d).dir, d.since[j].dir, name);
    forall other ensures exists k :: 0 <= k < |d.since| && Entry(dir, other) == Entry(d.since[k].dir, other) {
      if other == name {
        assert Entry(dir, other) == Entry(d.since[j].dir, other);
      } else {
        assert Entry(dir, other) == Entry(d.since[|d.since| - 1].dir, other);
      }
    }
  }

  // Time may pass at any moment, and changes nothing but the clock.
  lemma TimePasses(dest: Name, s: State, seconds: nat)
    requires s.disk.since != []
    ensures Enabled(dest, s, Wait(seconds)) &&
      Apply(dest, s, Wait(seconds)) == s.(disk := s.disk.(now := s.disk.now + seconds))
  {
  }

  // A write appends the next bytes of the call's own data to its own file, and
  // touches the file when there are any.
  lemma FillAppends(dest: Name, s: State, w: Wid, k: nat)
    requires Enabled(dest, s, Fill(w, k))
    ensures var s', pc := Apply(dest, s, Fill(w, k)), PcOf(s, w);
      && PcOf(s', w) == Filling(pc.job, pc.n + k) && s'.disk.since == s.disk.since
      && s'.disk.content == s.disk.content[pc.job.ino := s.disk.content[pc.job.ino] + pc.job.data[pc.n..pc.n + k]]
      && s'.disk.mtime == (if k == 0 then s.disk.mtime else s.disk.mtime[pc.job.ino := s.disk.now])
  {
  }
}
